/** `Client.GoalLinks` (internal/reddit/client.go): resolve many goals at once.
    Goals are de-duplicated by key and cached ones answered from the cache; the
    rest are resolved one by one in batches of five, with a pause between
    batches. Sleeping is recorded as a `Pause` step of the returned trace. */
module Batch {
  import opened Wrappers
  import opened Seqs
  import opened RateLimit
  import opened Resolver

  const BatchSize := 5
  const BatchDelay: Duration := 2 * Second

  /** The goals that need a search: the first goal of each key, skipping keys
      already in the cache, in input order (see `PendingGoals`). */
  function Pending(cache: Cache, goals: seq<GoalInfo>): seq<GoalInfo>
  {
    Filter(DedupBy(goals, Key, {}), Uncached(cache))
  }

  /** Whether a goal's key has no cache entry. */
  function Uncached(cache: Cache): GoalInfo -> bool
  {
    (g: GoalInfo) => Key(g) !in cache
  }

  /** The pending goals are input goals with uncached, pairwise distinct keys, and
      every uncached key of the input has one. */
  lemma PendingGoals(cache: Cache, goals: seq<GoalInfo>)
    ensures var p := Pending(cache, goals);
            && (forall g :: g in p ==> g in goals && Key(g) !in cache)
            && DistinctKeys(p, Key)
            && KeysOf(p, Key) == KeysOf(goals, Key) - cache.Keys
  {
    var firsts := DedupBy(goals, Key, {});
    var keep := Uncached(cache);
    var p := Filter(firsts, keep);
    FilterKeepsDistinct(firsts, keep, Key);
    assert KeysOf(p, Key) == KeysOf(firsts, Key) - cache.Keys by {
      forall k | k in KeysOf(firsts, Key) - cache.Keys ensures k in KeysOf(p, Key) {
        var g :| g in firsts && Key(g) == k;
        assert g in p;
      }
    }
  }

  /** Extending the goals by one: it becomes pending exactly when its key is new
      and not cached. */
  lemma PendingSnoc(cache: Cache, goals: seq<GoalInfo>, g: GoalInfo)
    ensures Pending(cache, goals + [g])
         == Pending(cache, goals) + (if Key(g) in KeysOf(goals, Key) || Key(g) in cache then [] else [g])
  {
    var keep := Uncached(cache);
    var firsts := DedupBy(goals, Key, {});
    var extra: seq<GoalInfo> := if Key(g) in KeysOf(goals, Key) then [] else [g];
    DedupSnoc(goals, g, Key, {});
    assert {} + KeysOf(goals, Key) == KeysOf(goals, Key);
    assert DedupBy(goals + [g], Key, {}) == firsts + extra;
    FilterAppend(firsts, extra, keep);
    assert Filter(extra, keep) == (if extra == [] || Key(g) in cache then [] else [g]) by {
      if extra != [] {
        assert extra[1..] == [];
      }
    }
  }

  /** The cached links of the given goals, by key ("not found" markers give none). */
  ghost function CachedHits(cache: Cache, goals: seq<GoalInfo>): (hits: map<GoalKey, GoalLink>)
    ensures forall k :: k in hits <==> k in KeysOf(goals, Key) && k in cache && cache[k].Found?
    ensures forall k :: k in hits ==> hits[k] == cache[k].link
  {
    map k | k in cache && k in KeysOf(goals, Key) && cache[k].Found? :: cache[k].link
  }

  /** The cache entry an error-free search result is recorded as. */
  function EntryOf(o: Outcome): (e: Entry)
    ensures e.Found? <==> o.link.Some?
    ensures e.Found? ==> e.link == o.link.value
  {
    match o.link
    case Some(l) => Found(l)
    case None => NotFound
  }

  /** What resolving the first `n` goals of `p` in order writes into the cache
      (see `WrittenEntries`). */
  function Written(p: seq<GoalInfo>, n: nat, search: GoalInfo -> Outcome): map<GoalKey, Entry>
    requires n <= |p|
    decreases n
  {
    if n == 0 then map[]
    else
      var w := Written(p, n - 1, search);
      var o := search(p[n - 1]);
      if o.err.None? then w[Key(p[n - 1]) := EntryOf(o)] else w
  }

  /** Every key written is the key of one of the first `n` goals. */
  lemma {:induction false} WrittenKeys(p: seq<GoalInfo>, n: nat, search: GoalInfo -> Outcome)
    requires n <= |p|
    ensures forall k :: k in Written(p, n, search) ==> exists m :: 0 <= m < n && Key(p[m]) == k
    decreases n
  {
    if n > 0 {
      WrittenKeys(p, n - 1, search);
      forall k | k in Written(p, n, search) ensures exists m :: 0 <= m < n && Key(p[m]) == k {
        if k != Key(p[n - 1]) {
          assert k in Written(p, n - 1, search);
          var m :| 0 <= m < n - 1 && Key(p[m]) == k;
        }
      }
    }
  }

  /** Every one of the first `n` goals whose search did not fail has an entry. */
  lemma {:induction false} WrittenCoversOutcomes(p: seq<GoalInfo>, n: nat, search: GoalInfo -> Outcome)
    requires n <= |p|
    ensures forall m :: 0 <= m < n && search(p[m]).err.None? ==> Key(p[m]) in Written(p, n, search)
    decreases n
  {
    if n > 0 {
      WrittenCoversOutcomes(p, n - 1, search);
    }
  }

  /** With distinct keys, the entry of each of the first `n` goals is its own
      outcome, and a failed search leaves no entry. */
  lemma {:induction false} WrittenEntries(p: seq<GoalInfo>, n: nat, search: GoalInfo -> Outcome)
    requires n <= |p|
    requires DistinctKeys(p, Key)
    ensures forall m :: 0 <= m < n ==>
              if search(p[m]).err.None?
              then Key(p[m]) in Written(p, n, search) && Written(p, n, search)[Key(p[m])] == EntryOf(search(p[m]))
              else Key(p[m]) !in Written(p, n, search)
    decreases n
  {
    if n > 0 {
      WrittenEntries(p, n - 1, search);
      WrittenKeys(p, n - 1, search);
      forall m | 0 <= m < n - 1 ensures Key(p[m]) != Key(p[n - 1]) {
      }
      assert Key(p[n - 1]) !in Written(p, n - 1, search);
    }
  }

  /** The links among the entries written. */
  function FoundLinks(w: map<GoalKey, Entry>): (links: map<GoalKey, GoalLink>)
    ensures forall k :: k in links <==> k in w && w[k].Found?
    ensures forall k :: k in links ==> links[k] == w[k].link
  {
    map k | k in w && w[k].Found? :: w[k].link
  }

  /** A step of the batch schedule: sleeping between batches, or resolving a goal. */
  datatype Step = Pause(d: Duration) | Resolve(goal: GoalInfo)

  /** The schedule of the first `n` pending goals: each goal is resolved in turn,
      and a pause precedes every goal that opens a batch other than the first. */
  function Schedule(p: seq<GoalInfo>, n: nat): seq<Step>
    requires n <= |p|
    decreases n
  {
    if n == 0 then []
    else
      Schedule(p, n - 1)
      + (if n - 1 > 0 && (n - 1) % BatchSize == 0 then [Pause(BatchDelay)] else [])
      + [Resolve(p[n - 1])]
  }

  /** The goals resolved by a trace, in order. */
  function Resolves(t: seq<Step>): seq<GoalInfo>
    decreases |t|
  {
    if |t| == 0 then []
    else Resolves(t[..|t| - 1]) + (if t[|t| - 1].Resolve? then [t[|t| - 1].goal] else [])
  }

  /** The pauses of a trace. */
  function Pauses(t: seq<Step>): nat
    decreases |t|
  {
    if |t| == 0 then 0
    else Pauses(t[..|t| - 1]) + (if t[|t| - 1].Pause? then 1 else 0)
  }

  lemma StepsSnoc(t: seq<Step>, s: Step)
    ensures Resolves(t + [s]) == Resolves(t) + (if s.Resolve? then [s.goal] else [])
    ensures Pauses(t + [s]) == Pauses(t) + (if s.Pause? then 1 else 0)
  {
    assert (t + [s])[..|t|] == t;
  }

  /** One more goal extends the schedule by an optional pause and its resolution. */
  lemma ScheduleSnoc(p: seq<GoalInfo>, n: nat)
    requires 0 < n <= |p|
    ensures var opens := n - 1 > 0 && (n - 1) % BatchSize == 0;
            && Resolves(Schedule(p, n)) == Resolves(Schedule(p, n - 1)) + [p[n - 1]]
            && Pauses(Schedule(p, n)) == Pauses(Schedule(p, n - 1)) + (if opens then 1 else 0)
  {
    var t := Schedule(p, n - 1);
    if n - 1 > 0 && (n - 1) % BatchSize == 0 {
      StepsSnoc(t, Pause(BatchDelay));
      StepsSnoc(t + [Pause(BatchDelay)], Resolve(p[n - 1]));
    } else {
      assert Schedule(p, n) == t + [Resolve(p[n - 1])];
      StepsSnoc(t, Resolve(p[n - 1]));
    }
  }

  /** The steps that resolve goals `i` up to `j` of `p`, one each, in order. */
  function ResolveSteps(p: seq<GoalInfo>, i: nat, j: nat): (steps: seq<Step>)
    requires i <= j <= |p|
    ensures |steps| == j - i
    ensures forall k :: 0 <= k < j - i ==> steps[k] == Resolve(p[i + k])
    decreases j - i
  {
    if j == i then [] else ResolveSteps(p, i, j - 1) + [Resolve(p[j - 1])]
  }

  /** Goals after the first of a batch do not open one. */
  lemma InsideBatch(b: nat, k: nat)
    requires 0 < k < BatchSize
    ensures (BatchSize * b + k) % BatchSize == k
  {
  }

  /** A batch `b` starting at goal `i` extends the schedule by its opening pause
      (none for the first batch) and the resolution of its goals. */
  lemma {:induction false} ScheduleBatch(p: seq<GoalInfo>, b: nat, i: nat, end: nat)
    requires i == BatchSize * b && i <= end <= i + BatchSize && end <= |p|
    ensures end > i ==>
      Schedule(p, end) == Schedule(p, i) + (if i > 0 then [Pause(BatchDelay)] else []) + ResolveSteps(p, i, end)
    decreases end - i
  {
    if end > i + 1 {
      ScheduleBatch(p, b, i, end - 1);
      InsideBatch(b, end - 1 - i);
      var opening: seq<Step> := if i > 0 then [Pause(BatchDelay)] else [];
      var last := [Resolve(p[end - 1])];
      assert Schedule(p, end) == Schedule(p, end - 1) + last;
      assert ResolveSteps(p, i, end) == ResolveSteps(p, i, end - 1) + last;
      assert Schedule(p, i) + opening + ResolveSteps(p, i, end - 1) + last
          == Schedule(p, i) + opening + (ResolveSteps(p, i, end - 1) + last);
    }
  }

  /** The schedule resolves exactly the pending goals, each once and in order. */
  lemma {:induction false} ScheduleResolvesPending(p: seq<GoalInfo>, n: nat)
    requires n <= |p|
    ensures Resolves(Schedule(p, n)) == p[..n]
    decreases n
  {
    if n > 0 {
      ScheduleResolvesPending(p, n - 1);
      ScheduleSnoc(p, n);
      assert p[..n] == p[..n - 1] + [p[n - 1]];
    }
  }

  /** The schedule sleeps once per batch boundary: ⌈n / 5⌉ - 1 pauses for n goals. */
  lemma {:induction false} SchedulePauseCount(p: seq<GoalInfo>, n: nat)
    requires n <= |p|
    ensures Pauses(Schedule(p, n)) == if n == 0 then 0 else (n - 1) / BatchSize
    decreases n
  {
    if n > 0 {
      SchedulePauseCount(p, n - 1);
      ScheduleSnoc(p, n);
    }
  }

  /** Every pause of the schedule lasts the batch delay. */
  lemma SchedulePausesAreBatchDelay(p: seq<GoalInfo>, n: nat)
    requires n <= |p|
    ensures forall s :: s in Schedule(p, n) && s.Pause? ==> s.d == BatchDelay
    decreases n
  {
    if n > 0 {
      SchedulePausesAreBatchDelay(p, n - 1);
    }
  }

  /** The schedule never sleeps before the first goal. */
  lemma ScheduleStartsWithResolve(p: seq<GoalInfo>, n: nat)
    requires 0 < n <= |p|
    ensures Schedule(p, n)[0] == Resolve(p[0])
    decreases n
  {
    if n > 1 {
      ScheduleStartsWithResolve(p, n - 1);
    }
  }

  /** The keys of the goals seen so far, with one more goal. */
  lemma CachedHitsSnoc(cache: Cache, goals: seq<GoalInfo>, g: GoalInfo)
    ensures CachedHits(cache, goals + [g])
         == (if Key(g) in KeysOf(goals, Key) || Key(g) !in cache || cache[Key(g)].NotFound?
             then CachedHits(cache, goals)
             else CachedHits(cache, goals)[Key(g) := cache[Key(g)].link])
  {
    KeysOfSnoc(goals, g, Key);
  }

  /** The first pass of `GoalLinks`: the cached links of the goals, and the goals
      left to search. */
  method Triage(cache0: Cache, goals: seq<GoalInfo>) returns (hits: map<GoalKey, GoalLink>, pending: seq<GoalInfo>)
    ensures hits == CachedHits(cache0, goals)
    ensures pending == Pending(cache0, goals)
  {
    hits := map[];
    var seen: set<GoalKey> := {};
    pending := [];
    for i := 0 to |goals|
      invariant seen == KeysOf(goals[..i], Key)
      invariant pending == Pending(cache0, goals[..i])
      invariant hits == CachedHits(cache0, goals[..i])
    {
      var goal := goals[i];
      var key := Key(goal);
      assert goals[..i + 1] == goals[..i] + [goal];
      KeysOfSnoc(goals[..i], goal, Key);
      PendingSnoc(cache0, goals[..i], goal);
      CachedHitsSnoc(cache0, goals[..i], goal);
      if key in seen {
        continue;
      }
      seen := seen + {key};
      if key in cache0 {
        if cache0[key].Found? {
          hits := hits[key := cache0[key].link];
        }
        continue;
      }
      pending := pending + [goal];
    }
    assert goals[..|goals|] == goals;
  }

  /** The cache and the collected links while the pending goals are resolved. */
  datatype Progress = Progress(cache: Cache, results: map<GoalKey, GoalLink>)

  /** Resolving one more goal through `GoalLink`: its cache writes are kept and a
      found link joins the results under the goal's key. */
  function Advance(pr: Progress, g: GoalInfo, search: GoalInfo -> Outcome): Progress
  {
    var r := ResolveOne(pr.cache, g, search);
    Progress(r.cache, if r.err.None? && r.link.Some? then pr.results[Key(g) := r.link.value] else pr.results)
  }

  /** The progress after resolving the first `n` pending goals through `GoalLink`,
      one after another, starting from `cache0` and the cached hits. */
  function Run(cache0: Cache, hits: map<GoalKey, GoalLink>, p: seq<GoalInfo>, n: nat,
               search: GoalInfo -> Outcome): Progress
    requires n <= |p|
    decreases n
  {
    if n == 0 then Progress(cache0, hits) else Advance(Run(cache0, hits, p, n - 1, search), p[n - 1], search)
  }

  /** Resolving distinct, uncached goals in turn adds exactly their written entries
      to the cache and their found links to the results. */
  lemma {:induction false} RunWritesOutcomes(cache0: Cache, hits: map<GoalKey, GoalLink>, p: seq<GoalInfo>,
                                             n: nat, search: GoalInfo -> Outcome)
    requires n <= |p|
    requires DistinctKeys(p, Key)
    requires forall g :: g in p ==> Key(g) !in cache0 && Key(g) !in hits && KeepsKey(search, g)
    ensures Run(cache0, hits, p, n, search)
         == Progress(cache0 + Written(p, n, search), hits + FoundLinks(Written(p, n, search)))
    decreases n
  {
    if n == 0 {
      var none := FoundLinks(map[]);
      assert none == map[];
      assert cache0 + map[] == cache0 && hits + none == hits;
    } else {
      RunWritesOutcomes(cache0, hits, p, n - 1, search);
      assert p[n - 1] in p;
      ResolveStep(cache0, hits, p, n - 1, search, Run(cache0, hits, p, n - 1, search));
    }
  }

  /** One batch: the pause before every batch but the first, then pending goals
      `i` up to `end`, each through `GoalLink`. */
  method ResolveBatch(ghost cache0: Cache, ghost hits: map<GoalKey, GoalLink>, p: seq<GoalInfo>,
                      search: GoalInfo -> Outcome, i: nat, end: nat,
                      cacheIn: Cache, resultsIn: map<GoalKey, GoalLink>, traceIn: seq<Step>)
    returns (cache: Cache, results: map<GoalKey, GoalLink>, trace: seq<Step>)
    requires i < end <= |p|
    requires Progress(cacheIn, resultsIn) == Run(cache0, hits, p, i, search)
    ensures Progress(cache, results) == Run(cache0, hits, p, end, search)
    ensures trace == traceIn + (if i > 0 then [Pause(BatchDelay)] else []) + ResolveSteps(p, i, end)
  {
    cache, results, trace := cacheIn, resultsIn, traceIn;
    if i > 0 {
      trace := trace + [Pause(BatchDelay)];
    }
    ghost var started := trace;
    for j := i to end
      invariant Progress(cache, results) == Run(cache0, hits, p, j, search)
      invariant trace == started + ResolveSteps(p, i, j)
    {
      var goal := p[j];
      var r := ResolveOne(cache, goal, search);
      cache := r.cache;
      if r.err.None? && r.link.Some? {
        results := results[Key(goal) := r.link.value];
      }
      trace := trace + [Resolve(goal)];
    }
  }

  /** The second pass of `GoalLinks`: the pending goals in batches of five. */
  method ResolveBatches(cache0: Cache, hits: map<GoalKey, GoalLink>, p: seq<GoalInfo>, search: GoalInfo -> Outcome)
    returns (results: map<GoalKey, GoalLink>, cache: Cache, trace: seq<Step>)
    requires DistinctKeys(p, Key)
    requires forall g :: g in p ==> Key(g) !in cache0 && Key(g) !in hits && KeepsKey(search, g)
    ensures results == hits + FoundLinks(Written(p, |p|, search))
    ensures cache == cache0 + Written(p, |p|, search)
    ensures trace == Schedule(p, |p|)
  {
    results := hits;
    cache := cache0;
    trace := [];
    // `i` advances to the end of the batch just resolved: that is `i + 5` for
    // every batch but the last, after which the loop ends either way.
    var i := 0;
    ghost var b := 0;
    while i < |p|
      invariant i <= |p| && (i < |p| ==> i == BatchSize * b)
      invariant Progress(cache, results) == Run(cache0, hits, p, i, search)
      invariant trace == Schedule(p, i)
      decreases |p| - i
    {
      var end := i + BatchSize;
      if end > |p| {
        end := |p|;
      }
      cache, results, trace := ResolveBatch(cache0, hits, p, search, i, end, cache, results, trace);
      ScheduleBatch(p, b, i, end);
      i := end;
      b := b + 1;
    }
    RunWritesOutcomes(cache0, hits, p, |p|, search);
  }

  /** `GoalLinks`: the cached goals are answered from the cache, the rest are
      resolved in batches; the search used for each goal files what it finds under
      that goal's key. */
  method GoalLinks(cache0: Cache, goals: seq<GoalInfo>, search: GoalInfo -> Outcome)
    returns (results: map<GoalKey, GoalLink>, cache: Cache, trace: seq<Step>)
    requires forall g :: g in goals ==> KeepsKey(search, g)
    ensures results == CachedHits(cache0, goals) + FoundLinks(Written(Pending(cache0, goals), |Pending(cache0, goals)|, search))
    ensures cache == cache0 + Written(Pending(cache0, goals), |Pending(cache0, goals)|, search)
    ensures trace == Schedule(Pending(cache0, goals), |Pending(cache0, goals)|)
    ensures forall k :: k in results ==> k in KeysOf(goals, Key)
  {
    var hits, pending := Triage(cache0, goals);
    PendingGoals(cache0, goals);
    results, cache, trace := ResolveBatches(cache0, hits, pending, search);
    WrittenKeys(pending, |pending|, search);
    forall k | k in results ensures k in KeysOf(goals, Key) {
      if k !in hits {
        var m :| 0 <= m < |pending| && Key(pending[m]) == k;
        assert pending[m] in pending;
      }
    }
  }

  /** The searched goal's entry, filed under its own key by a key-keeping search. */
  lemma ResolveUncached(cache: Cache, g: GoalInfo, search: GoalInfo -> Outcome)
    requires Key(g) !in cache
    requires KeepsKey(search, g)
    ensures var r := ResolveOne(cache, g, search);
            && r.cache == (if search(g).err.Some? then cache else cache[Key(g) := EntryOf(search(g))])
            && (r.err.None? && r.link.Some? <==> search(g).err.None? && search(g).link.Some?)
            && (r.link.Some? ==> r.link == search(g).link)
  {
  }

  lemma FoundLinksUpdate(w: map<GoalKey, Entry>, k: GoalKey, e: Entry)
    requires k !in w
    ensures FoundLinks(w[k := e]) == (if e.Found? then FoundLinks(w)[k := e.link] else FoundLinks(w))
  {
  }

  lemma UnionUpdate<V>(a: map<GoalKey, V>, b: map<GoalKey, V>, k: GoalKey, v: V)
    ensures (a + b)[k := v] == a + b[k := v]
  {
  }

  /** A pending goal's key is in no earlier pending goal's entries. */
  lemma NotYetWritten(p: seq<GoalInfo>, j: nat, search: GoalInfo -> Outcome)
    requires j < |p|
    requires DistinctKeys(p, Key)
    ensures Key(p[j]) !in Written(p, j, search)
  {
    WrittenKeys(p, j, search);
    forall m | 0 <= m < j ensures Key(p[m]) != Key(p[j]) {
    }
  }

  /** One step of the batch loop: resolving pending goal `j` extends the written
      entries by that goal's outcome. */
  lemma ResolveStep(cache0: Cache, hits: map<GoalKey, GoalLink>, p: seq<GoalInfo>, j: nat,
                    search: GoalInfo -> Outcome, before: Progress)
    requires j < |p|
    requires DistinctKeys(p, Key)
    requires Key(p[j]) !in cache0 && Key(p[j]) !in hits && KeepsKey(search, p[j])
    requires before == Progress(cache0 + Written(p, j, search), hits + FoundLinks(Written(p, j, search)))
    ensures Advance(before, p[j], search)
         == Progress(cache0 + Written(p, j + 1, search), hits + FoundLinks(Written(p, j + 1, search)))
  {
    var g := p[j];
    var w := Written(p, j, search);
    NotYetWritten(p, j, search);
    ResolveUncached(cache0 + w, g, search);
    if search(g).err.None? {
      var e := EntryOf(search(g));
      UnionUpdate(cache0, w, Key(g), e);
      FoundLinksUpdate(w, Key(g), e);
      if e.Found? {
        UnionUpdate(hits, FoundLinks(w), Key(g), e.link);
      }
    }
  }
}
