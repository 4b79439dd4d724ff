/** The search box of the command-history page: a record stays in the list when
    the search term occurs, ignoring case, in its command or in its response. */
module HistoryFilter {
  import opened Text
  import opened Schema

  /** The test applied to one record. A missing or empty response is skipped, as
      the `&&` guard treats an empty string as false. */
  predicate Matches(r: CommandRecord, term: string) {
    Contains(ToLower(r.command), ToLower(term))
    || (r.response.Some? && r.response.value != ""
        && Contains(ToLower(r.response.value), ToLower(term)))
  }

  /** `commandHistory.filter(...)`. */
  function Filter(records: seq<CommandRecord>, term: string): (kept: seq<CommandRecord>)
    ensures |kept| <= |records|
    ensures forall r :: r in kept ==> r in records && Matches(r, term)
  {
    if records == [] then []
    else
      var rest := Filter(records[1..], term);
      if Matches(records[0], term) then [records[0]] + rest else rest
  }

  /** `a` is `b` with some elements removed, the rest in their original order. */
  predicate IsSubsequence<T(==)>(a: seq<T>, b: seq<T>)
    decreases |b|
  {
    if a == [] then true
    else if b == [] then false
    else (a[0] == b[0] && IsSubsequence(a[1..], b[1..])) || IsSubsequence(a, b[1..])
  }

  /** A record is listed exactly when it is in the history and matches. */
  lemma {:induction false} FilterKeepsExactlyMatches(records: seq<CommandRecord>, term: string,
                                                      r: CommandRecord)
    ensures r in Filter(records, term) <==> r in records && Matches(r, term)
  {
    if records != [] {
      FilterKeepsExactlyMatches(records[1..], term, r);
      if r in records && r != records[0] {
        assert r in records[1..];
      }
    }
  }

  lemma EmptyIsContained(s: string)
    ensures Contains(s, "")
  {
    ContainsAt(s, "", 0);
  }

  /** Every record matches the empty term. */
  lemma EveryRecordMatchesEmpty(r: CommandRecord)
    ensures Matches(r, "")
  {
    assert ToLower("") == "";
    EmptyIsContained(ToLower(r.command));
  }

  /** An empty search box lists the whole history, unchanged. */
  lemma {:induction false} EmptyTermKeepsAll(records: seq<CommandRecord>)
    ensures Filter(records, "") == records
  {
    if records != [] {
      EveryRecordMatchesEmpty(records[0]);
      EmptyTermKeepsAll(records[1..]);
    }
  }

  /** The list shown is the history with some records removed, in the same order. */
  lemma {:induction false} FilterIsSubsequence(records: seq<CommandRecord>, term: string)
    ensures IsSubsequence(Filter(records, term), records)
  {
    if records != [] {
      FilterIsSubsequence(records[1..], term);
      var rest := Filter(records[1..], term);
      if Matches(records[0], term) {
        assert ([records[0]] + rest)[1..] == rest;
      } else {
        SubsequenceOfTail(rest, records);
      }
    }
  }

  lemma SubsequenceOfTail<T>(a: seq<T>, b: seq<T>)
    requires b != [] && IsSubsequence(a, b[1..])
    ensures IsSubsequence(a, b)
  {
  }

  /** A record with no response is matched on its command text alone. */
  lemma NoResponseMatchesCommand(r: CommandRecord, term: string)
    requires r.response.None?
    ensures Matches(r, term) <==> Contains(ToLower(r.command), ToLower(term))
  {
  }

  /** A term that appears in the response, whatever its case, keeps the record. */
  lemma ResponseMatchKeeps(records: seq<CommandRecord>, term: string, i: nat, k: nat)
    requires i < |records| && records[i].response.Some?
    requires MatchesAt(ToLower(records[i].response.value), ToLower(term), k)
    ensures records[i] in Filter(records, term)
  {
    var r := records[i];
    ContainsAt(ToLower(r.response.value), ToLower(term), k);
    if r.response.value == "" {
      assert ToLower(term) == "";
      EmptyIsContained(ToLower(r.command));
    }
    FilterKeepsExactlyMatches(records, term, r);
  }
}
