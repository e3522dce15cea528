/** The records the document store returns from its queries.  Only the
    properties the server reads are kept; a title or rich-text property is
    the list of its text fragments. */
module Pages {
  import opened Wrappers

  /** A page identifier as the store hands it out. */
  type Id = string

  /** A page of the Teams database: title `Nom` and number `Score Total`
      (which the store leaves empty until it is first written). */
  datatype TeamPage = TeamPage(id: Id, title: seq<string>, score: Option<int>)

  /** A page of the Stands database: title `Nom du Stand` and the rich text
      `PIN Sécurisé` holding the PIN hash. */
  datatype StandPage = StandPage(id: Id, title: seq<string>, pinText: seq<string>)

  /** A page of the Logs database: title `ID`, number `Points`, the creation
      time `Timestamp`, and the relations `Relation Equipe` and
      `Relation Stand` as lists of page ids. */
  datatype LogPage = LogPage(
    id: Id,
    title: seq<string>,
    points: Option<int>,
    created: string,
    teamRel: seq<Id>,
    standRel: seq<Id>)

  /** The id of the first entry of a relation, absent when the relation is
      empty (`relation[0]?.id`). */
  function FirstId(rel: seq<Id>): (r: Option<Id>)
    ensures r.Some? <==> |rel| > 0
    ensures r.Some? ==> r.value == rel[0]
  {
    if |rel| == 0 then None else Some(rel[0])
  }

  /** The content of the first text fragment of a title or rich text
      (`title[0].text.content`), which throws when there is none. */
  function FirstText(fragments: seq<string>): (r: Result<string>)
    ensures r.Ok? <==> |fragments| > 0
    ensures r.Ok? ==> r.value == fragments[0]
  {
    if |fragments| == 0 then Threw else Ok(fragments[0])
  }
}
