/** The league lookup of scripts/find_league_id.go: the suggestions returned by the
    search endpoint are reduced to leagues with distinct IDs, and long names are
    cut to a column width. The HTTP request and JSON decoding are outside the
    model: the decoded groups are an input, a failed request is `Err`. */
module Leagues {
  import opened Wrappers
  import opened Seqs

  /** A byte of a Go string; `len` and slicing count bytes. */
  newtype byte = x: int | 0 <= x < 256

  /** `"..."` as bytes. */
  const Ellipsis: seq<byte> := [46, 46, 46]

  /** `truncate(s, max)`: `s` when it fits, otherwise its first `max - 3` bytes and
      an ellipsis. For `max < 3` the slice bound is negative and Go panics: `None`. */
  function Truncate(s: seq<byte>, max: int): (r: Option<seq<byte>>)
    ensures |s| <= max ==> r == Some(s)
    ensures |s| > max && max >= 3 ==> r.Some? && |r.value| == max
    ensures |s| > max && max >= 3 ==> r.value[..max - 3] == s[..max - 3] && r.value[max - 3..] == Ellipsis
    ensures r.None? <==> |s| > max && max < 3
  {
    if |s| <= max then Some(s)
    else if max - 3 < 0 then None
    else Some(s[..max - 3] + Ellipsis)
  }

  /** Whatever fits is left alone, and cutting again changes nothing. */
  lemma TruncateIdempotent(s: seq<byte>, max: int)
    requires max >= 3
    ensures Truncate(Truncate(s, max).value, max) == Truncate(s, max)
  {
  }

  /** One entry of a group's `suggestions`, with `ccode` as `country`. */
  datatype Suggestion = Suggestion(kind: string, id: string, name: string, country: string)

  /** One decoded element of the response array. */
  datatype Group = Group(suggestions: seq<Suggestion>)

  /** `league`: the parsed ID, name and country of a league suggestion. */
  datatype League = League(id: int, name: string, country: string)

  function IdOf(l: League): int { l.id }

  /** The league a suggestion would become; `parseId` is `fmt.Sscanf(s.ID, "%d", &id)`,
      which leaves `id` at 0 when the ID does not start with a number. */
  function LeagueOf(s: Suggestion, parseId: string -> int): League
  {
    League(parseId(s.id), s.name, s.country)
  }

  /** The league suggestions among the first `n` of `s`, in order. */
  function LeaguesUpTo(s: seq<Suggestion>, n: nat, parseId: string -> int): (r: seq<League>)
    requires n <= |s|
    ensures forall l :: l in r ==> exists k :: 0 <= k < n && s[k].kind == "league" && l == LeagueOf(s[k], parseId)
  {
    if n == 0 then []
    else LeaguesUpTo(s, n - 1, parseId) + (if s[n - 1].kind == "league" then [LeagueOf(s[n - 1], parseId)] else [])
  }

  /** The league suggestions of the first `n` groups, group by group. */
  function CandidatesUpTo(data: seq<Group>, n: nat, parseId: string -> int): (r: seq<League>)
    requires n <= |data|
    ensures forall l :: l in r ==>
              (exists g, k :: 0 <= g < n && 0 <= k < |data[g].suggestions|
                 && data[g].suggestions[k].kind == "league" && l == LeagueOf(data[g].suggestions[k], parseId))
  {
    if n == 0 then []
    else
      var s := data[n - 1].suggestions;
      CandidatesUpTo(data, n - 1, parseId) + LeaguesUpTo(s, |s|, parseId)
  }

  /** Every league suggestion is a candidate. */
  lemma {:induction false} LeagueIsCandidate(data: seq<Group>, n: nat, g: nat, k: nat, parseId: string -> int)
    requires g < n <= |data| && k < |data[g].suggestions| && data[g].suggestions[k].kind == "league"
    ensures LeagueOf(data[g].suggestions[k], parseId) in CandidatesUpTo(data, n, parseId)
  {
    var s := data[n - 1].suggestions;
    if g < n - 1 {
      LeagueIsCandidate(data, n - 1, g, k, parseId);
    } else {
      LeagueInGroup(s, |s|, k, parseId);
    }
  }

  lemma {:induction false} LeagueInGroup(s: seq<Suggestion>, n: nat, k: nat, parseId: string -> int)
    requires k < n <= |s| && s[k].kind == "league"
    ensures LeagueOf(s[k], parseId) in LeaguesUpTo(s, n, parseId)
  {
    if k < n - 1 {
      LeagueInGroup(s, n - 1, k, parseId);
    }
  }

  /** What `search` returns for the decoded response: a failed request gives no
      results; otherwise the league suggestions in group order, keeping only the
      first suggestion of each ID. */
  function Search(data: Result<seq<Group>>, parseId: string -> int): (r: seq<League>)
    ensures data.Err? ==> r == []
  {
    if data.Err? then [] else DedupBy(CandidatesUpTo(data.value, |data.value|, parseId), IdOf, {})
  }

  /** The results are league suggestions with pairwise-distinct IDs, and every ID
      of a league suggestion is among them. */
  lemma SearchResults(data: seq<Group>, parseId: string -> int)
    ensures forall i, j :: 0 <= i < j < |Search(Ok(data), parseId)| ==>
              Search(Ok(data), parseId)[i].id != Search(Ok(data), parseId)[j].id
    ensures forall l :: l in Search(Ok(data), parseId) ==>
              (exists g, k :: 0 <= g < |data| && 0 <= k < |data[g].suggestions|
                 && data[g].suggestions[k].kind == "league" && l == LeagueOf(data[g].suggestions[k], parseId))
    ensures forall g, k :: 0 <= g < |data| && 0 <= k < |data[g].suggestions| && data[g].suggestions[k].kind == "league"
              ==> parseId(data[g].suggestions[k].id) in KeysOf(Search(Ok(data), parseId), IdOf)
  {
    var c := CandidatesUpTo(data, |data|, parseId);
    forall g, k | 0 <= g < |data| && 0 <= k < |data[g].suggestions| && data[g].suggestions[k].kind == "league"
      ensures parseId(data[g].suggestions[k].id) in KeysOf(Search(Ok(data), parseId), IdOf)
    {
      LeagueIsCandidate(data, |data|, g, k, parseId);
      assert IdOf(LeagueOf(data[g].suggestions[k], parseId)) in KeysOf(c, IdOf);
    }
  }

  /** The candidate that comes first for its ID is the one returned. */
  lemma FirstOfEachIdWins(data: seq<Group>, parseId: string -> int, i: nat)
    requires i < |CandidatesUpTo(data, |data|, parseId)|
    requires var c := CandidatesUpTo(data, |data|, parseId); forall j :: 0 <= j < i ==> c[j].id != c[i].id
    ensures CandidatesUpTo(data, |data|, parseId)[i] in Search(Ok(data), parseId)
  {
    FirstOccurrenceKept(CandidatesUpTo(data, |data|, parseId), i, IdOf, {});
  }

  /** One round of the inner loop of `search`: a league suggestion whose ID is new
      joins the results and marks its ID seen; anything else is skipped. */
  method ScanSuggestion(x: Suggestion, parseId: string -> int, ghost prefix: seq<League>,
                        resultsIn: seq<League>, seenIn: set<int>)
    returns (results: seq<League>, seen: set<int>)
    requires resultsIn == DedupBy(prefix, IdOf, {}) && seenIn == KeysOf(prefix, IdOf)
    ensures var next := prefix + (if x.kind == "league" then [LeagueOf(x, parseId)] else []);
            results == DedupBy(next, IdOf, {}) && seen == KeysOf(next, IdOf)
  {
    results, seen := resultsIn, seenIn;
    if x.kind != "league" {
      assert prefix + [] == prefix;
      return;
    }
    var id := parseId(x.id);
    var l := League(id, x.name, x.country);
    DedupSnoc(prefix, l, IdOf, {});
    KeysOfSnoc(prefix, l, IdOf);
    if id in seen {
      return;
    }
    seen := seen + {id};
    results := results + [l];
  }

  lemma AppendAssoc(a: seq<League>, b: seq<League>, c: seq<League>)
    ensures a + (b + c) == (a + b) + c
  {
  }

  /** The inner loop of `search` over one group's suggestions. */
  method ScanGroup(s: seq<Suggestion>, parseId: string -> int, ghost before: seq<League>,
                   resultsIn: seq<League>, seenIn: set<int>)
    returns (results: seq<League>, seen: set<int>)
    requires resultsIn == DedupBy(before, IdOf, {}) && seenIn == KeysOf(before, IdOf)
    ensures results == DedupBy(before + LeaguesUpTo(s, |s|, parseId), IdOf, {})
    ensures seen == KeysOf(before + LeaguesUpTo(s, |s|, parseId), IdOf)
  {
    results, seen := resultsIn, seenIn;
    assert before + LeaguesUpTo(s, 0, parseId) == before;
    for si := 0 to |s|
      invariant results == DedupBy(before + LeaguesUpTo(s, si, parseId), IdOf, {})
      invariant seen == KeysOf(before + LeaguesUpTo(s, si, parseId), IdOf)
    {
      ghost var prefix := before + LeaguesUpTo(s, si, parseId);
      results, seen := ScanSuggestion(s[si], parseId, prefix, results, seen);
      ghost var extra := if s[si].kind == "league" then [LeagueOf(s[si], parseId)] else [];
      assert LeaguesUpTo(s, si + 1, parseId) == LeaguesUpTo(s, si, parseId) + extra;
      AppendAssoc(before, LeaguesUpTo(s, si, parseId), extra);
    }
  }

  /** The nested loops of `search` with their `seen` map. */
  method SearchLoop(data: Result<seq<Group>>, parseId: string -> int) returns (results: seq<League>)
    ensures results == Search(data, parseId)
  {
    if data.Err? {
      return [];
    }
    var groups := data.value;
    var seen: set<int> := {};
    results := [];
    for gi := 0 to |groups|
      invariant results == DedupBy(CandidatesUpTo(groups, gi, parseId), IdOf, {})
      invariant seen == KeysOf(CandidatesUpTo(groups, gi, parseId), IdOf)
    {
      var s := groups[gi].suggestions;
      results, seen := ScanGroup(s, parseId, CandidatesUpTo(groups, gi, parseId), results, seen);
    }
  }
}
