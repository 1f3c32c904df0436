/**
 * Redaction of the request section: masking of query parameters named in
 * `options.request.maskQuery` and removal of headers named in
 * `options.request.excludeHeaders`. Both options are lists; each operation
 * walks its list one name at a time and builds a new map, leaving the
 * request's own maps untouched.
 */
module Redaction {
  import opened AuditTypes

  /** `r` keeps every key of `query`; a key named in `names` has the mask as value, any other key its own value. */
  ghost predicate IsMaskedCopy(query: map<string, string>, names: seq<string>, r: map<string, string>)
  {
    && r.Keys == query.Keys
    && forall k :: k in r ==> r[k] == if k in names then Mask else query[k]
  }

  /** `r` holds exactly the headers not named in `names`, each with its original value. */
  ghost predicate IsFilteredCopy(headers: map<string, string>, names: seq<string>, r: map<string, string>)
  {
    && (forall k :: k in r <==> k in headers && k !in names)
    && forall k :: k in r ==> r[k] == headers[k]
  }

  /** Masks the query parameters named in `names`, in list order; a name the query lacks adds no key. */
  function MaskQuery(query: map<string, string>, names: seq<string>): (r: map<string, string>)
    ensures IsMaskedCopy(query, names, r)
    decreases |names|
  {
    if names == [] then query
    else
      var name := names[0];
      var step := if name in query then query[name := Mask] else query;
      assert forall k :: k in names <==> k == name || k in names[1..] by {
        assert names == [name] + names[1..];
      }
      MaskQuery(step, names[1..])
  }

  /** Drops the headers named in `names`, in list order, key and value; names of absent headers change nothing. */
  function ExcludeHeaders(headers: map<string, string>, names: seq<string>): (r: map<string, string>)
    ensures IsFilteredCopy(headers, names, r)
    decreases |names|
  {
    if names == [] then headers
    else
      assert forall k :: k in names <==> k == names[0] || k in names[1..] by {
        assert names == [names[0]] + names[1..];
      }
      ExcludeHeaders(headers - {names[0]}, names[1..])
  }

  /** `maskQuery` acts as a set: order and repetition of its names do not matter. */
  lemma MaskQueryDependsOnNameSet(query: map<string, string>, names1: seq<string>, names2: seq<string>)
    requires forall n :: n in names1 <==> n in names2
    ensures MaskQuery(query, names1) == MaskQuery(query, names2)
  {
  }

  /** `excludeHeaders` acts as a set: order and repetition of its names do not matter. */
  lemma ExcludeHeadersDependsOnNameSet(headers: map<string, string>, names1: seq<string>, names2: seq<string>)
    requires forall n :: n in names1 <==> n in names2
    ensures ExcludeHeaders(headers, names1) == ExcludeHeaders(headers, names2)
  {
  }

  /** Excluding headers none of which is present leaves the header map as it was. */
  lemma ExcludeAbsentHeadersIsIdentity(headers: map<string, string>, names: seq<string>)
    requires forall n :: n in names ==> n !in headers
    ensures ExcludeHeaders(headers, names) == headers
  {
  }

  /** The query of the test fixture. */
  const FixtureQuery: map<string, string> := map["q1" := "something", "q2" := "fishy"]

  /** Masking `q1` masks it and leaves `q2` alone. */
  lemma MaskOneParameter()
    ensures MaskQuery(FixtureQuery, ["q1"]) == map["q1" := Mask, "q2" := "fishy"]
  {
  }

  /** Masking `q1` and `q2` masks both. */
  lemma MaskBothParameters()
    ensures MaskQuery(FixtureQuery, ["q1", "q2"]) == map["q1" := Mask, "q2" := Mask]
  {
  }

  /** Excluding the two extra headers of the fixture leaves only `header1`. */
  lemma ExcludeTwoHeaders()
    ensures ExcludeHeaders(
              map["header1" := "some-value", "header-to-exclude" := "other-value", "another" := "some value"],
              ["header-to-exclude", "another"])
            == map["header1" := "some-value"]
  {
  }
}
