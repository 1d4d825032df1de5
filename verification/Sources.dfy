/** A user's configured scrape sources. */
module Sources {
  import opened Common

  type SourceKey = string

  /** `payload` stands for the type tag and the fields particular to that type. */
  datatype Source = Source(
    id: SourceKey, name: string, company: Option<string>, secondary: bool, enabled: bool,
    includeKeywords: seq<string>, excludeKeywords: seq<string>, payload: string)

  predicate DistinctIds(sources: seq<Source>) {
    forall i, j :: 0 <= i < j < |sources| ==> sources[i].id != sources[j].id
  }

  function SourceIds(sources: seq<Source>): set<SourceKey> {
    set s | s in sources :: s.id
  }

  function EnabledOf(sources: seq<Source>): seq<Source> {
    Filter(sources, (s: Source) => s.enabled)
  }
}
