/** The stop receipts of the admission cell: a time-sorted log, cut to 24 hours and 4096 entries.

    The stored value is a JavaScript object, so it keeps insertion order; after each write that
    order is the order of completion time. A sequence of receipts models it. */
module Receipts {
  import opened Collections

  const RETENTION_MS: int := 24 * 60 * 60 * 1000
  const MAX_COMPLETIONS: nat := 4096

  datatype Key = Key(id: string, generation: string)

  datatype Receipt = Receipt(key: Key, at: nat)

  function Keys(rs: seq<Receipt>): set<Key> {
    set r | r in rs :: r.key
  }

  predicate Sorted(rs: seq<Receipt>) {
    forall i, j | 0 <= i < j < |rs| :: rs[i].at <= rs[j].at
  }

  predicate DistinctKeys(rs: seq<Receipt>) {
    forall i, j | 0 <= i < j < |rs| :: rs[i].key != rs[j].key
  }

  /** What storage holds between writes. */
  predicate Stored(rs: seq<Receipt>) {
    Sorted(rs) && DistinctKeys(rs) && |rs| <= MAX_COMPLETIONS
  }

  function Recent(rs: seq<Receipt>, cutoff: int): seq<Receipt> {
    if rs == [] then []
    else
      var init, last := rs[..|rs| - 1], rs[|rs| - 1];
      Recent(init, cutoff) + if last.at >= cutoff then [last] else []
  }

  /** `r` after every receipt that completed no later: one step of a stable sort. */
  function Insert(rs: seq<Receipt>, r: Receipt): seq<Receipt> {
    if rs == [] || rs[|rs| - 1].at <= r.at then rs + [r]
    else Insert(rs[..|rs| - 1], r) + [rs[|rs| - 1]]
  }

  function ByCompletedAt(rs: seq<Receipt>): seq<Receipt> {
    if rs == [] then [] else Insert(ByCompletedAt(rs[..|rs| - 1]), rs[|rs| - 1])
  }

  function Newest(rs: seq<Receipt>): seq<Receipt> {
    if |rs| <= MAX_COMPLETIONS then rs else rs[|rs| - MAX_COMPLETIONS..]
  }

  function IndexOf(rs: seq<Receipt>, key: Key): (i: nat)
    ensures i <= |rs|
    ensures i < |rs| ==> rs[i].key == key
    ensures forall j | 0 <= j < i :: rs[j].key != key
  {
    if rs == [] then 0 else if rs[0].key == key then 0 else 1 + IndexOf(rs[1..], key)
  }

  /** Assigning a property: in place when the key exists, else at the end. */
  function Assign(rs: seq<Receipt>, key: Key, at: nat): seq<Receipt> {
    var i := IndexOf(rs, key);
    if i < |rs| then rs[i := Receipt(key, at)] else rs + [Receipt(key, at)]
  }

  /** The receipts inside retention at `now`, oldest first. */
  function Completions(rs: seq<Receipt>, now: nat): seq<Receipt> {
    Newest(ByCompletedAt(Recent(rs, now - RETENTION_MS)))
  }

  predicate HasCompletion(rs: seq<Receipt>, key: Key, now: nat) {
    key in Keys(Completions(rs, now))
  }

  /** The value one `#recordCompletion` puts; `read` and `at` are its two clock readings. */
  function Record(rs: seq<Receipt>, key: Key, read: nat, at: nat): seq<Receipt> {
    Newest(ByCompletedAt(Assign(Completions(rs, read), key, at)))
  }

  // ---- the pruned log against the full history ----

  /** Keys other than `key` whose last completion is at or after `key`'s. */
  function AtOrAfter(history: map<Key, nat>, key: Key): set<Key>
    requires key in history
  {
    set k | k in history && k != key && history[k] >= history[key]
  }

  function StrictlyAfter(history: map<Key, nat>, key: Key): set<Key>
    requires key in history
  {
    set k | k in history && history[k] > history[key]
  }

  /** The receipt is young enough and not crowded out, judged on the full history. */
  predicate Retained(history: map<Key, nat>, key: Key, now: nat) {
    && key in history
    && history[key] >= now - RETENTION_MS
    && |AtOrAfter(history, key)| < MAX_COMPLETIONS
  }

  /** The receipt must be gone: too old, or 4096 others are strictly newer. */
  predicate CrowdedOut(history: map<Key, nat>, key: Key, now: nat) {
    key !in history
    || history[key] < now - RETENTION_MS
    || |StrictlyAfter(history, key)| >= MAX_COMPLETIONS
  }

  /** Every stored receipt carries its key's last completion time. */
  predicate Truthful(rs: seq<Receipt>, history: map<Key, nat>) {
    forall r | r in rs :: r.key in history && history[r.key] == r.at
  }

  /** Every key that is gone is too old or crowded out. */
  ghost predicate DropsJustified(rs: seq<Receipt>, history: map<Key, nat>, now: nat) {
    forall k | k in history && k !in Keys(rs) ::
      history[k] < now - RETENTION_MS || |AtOrAfter(history, k)| >= MAX_COMPLETIONS
  }

  /** Whatever is newer than a stored receipt is stored. */
  ghost predicate Upward(rs: seq<Receipt>, history: map<Key, nat>) {
    forall r, k | r in rs && k in history && history[k] > r.at :: k in Keys(rs)
  }

  /** The stored receipts agree with `history`, the last completion time of every key ever
      recorded, up to the receipts that pruning may drop. */
  ghost predicate Tracks(rs: seq<Receipt>, history: map<Key, nat>, now: nat) {
    && Stored(rs)
    && (forall k | k in history :: history[k] <= now)
    && Truthful(rs, history)
    && DropsJustified(rs, history, now)
    && Upward(rs, history)
  }

  // ---- proofs ----

  lemma SnocFacts(rs: seq<Receipt>, x: Receipt)
    ensures Sorted(rs + [x]) <==> Sorted(rs) && forall r | r in rs :: r.at <= x.at
    ensures DistinctKeys(rs + [x]) <==> DistinctKeys(rs) && forall r | r in rs :: r.key != x.key
    ensures forall r :: r in rs + [x] <==> r in rs || r == x
  {
    var out := rs + [x];
    assert forall i | 0 <= i < |rs| :: out[i] == rs[i];
    if Sorted(out) {
      forall r | r in rs ensures r.at <= x.at {
        var i :| 0 <= i < |rs| && rs[i] == r;
        assert out[i].at <= out[|rs|].at;
      }
    }
    if DistinctKeys(out) {
      forall r | r in rs ensures r.key != x.key {
        var i :| 0 <= i < |rs| && rs[i] == r;
        assert out[i].key != out[|rs|].key;
      }
    }
  }

  lemma {:induction false} RecentFacts(rs: seq<Receipt>, cutoff: int)
    requires Sorted(rs) && DistinctKeys(rs)
    ensures forall r :: r in Recent(rs, cutoff) <==> r in rs && r.at >= cutoff
    ensures Sorted(Recent(rs, cutoff)) && DistinctKeys(Recent(rs, cutoff))
    ensures |Recent(rs, cutoff)| <= |rs|
  {
    if rs != [] {
      hide Sorted, DistinctKeys;
      var init, last := rs[..|rs| - 1], rs[|rs| - 1];
      assert rs == init + [last];
      SnocFacts(init, last);
      RecentFacts(init, cutoff);
      SnocFacts(Recent(init, cutoff), last);
      assert Recent(init, cutoff) + [] == Recent(init, cutoff);
    }
  }

  lemma SortedIsFixed(rs: seq<Receipt>)
    requires Sorted(rs)
    ensures ByCompletedAt(rs) == rs
  {
    if rs != [] {
      SortedIsFixed(rs[..|rs| - 1]);
      assert rs == rs[..|rs| - 1] + [rs[|rs| - 1]];
    }
  }

  lemma CompletionsFacts(rs: seq<Receipt>, now: nat)
    requires Stored(rs)
    ensures Completions(rs, now) == Recent(rs, now - RETENTION_MS)
    ensures Stored(Completions(rs, now))
    ensures forall r :: r in Completions(rs, now) <==> r in rs && r.at >= now - RETENTION_MS
  {
    RecentFacts(rs, now - RETENTION_MS);
    SortedIsFixed(Recent(rs, now - RETENTION_MS));
  }

  /** The receipts of one instant, in order. */
  function OfInstant(rs: seq<Receipt>, at: nat): seq<Receipt> {
    if rs == [] then []
    else OfInstant(rs[..|rs| - 1], at) + if rs[|rs| - 1].at == at then [rs[|rs| - 1]] else []
  }

  lemma OfInstantSnoc(rs: seq<Receipt>, r: Receipt, at: nat)
    ensures OfInstant(rs + [r], at) == OfInstant(rs, at) + if r.at == at then [r] else []
  {
    assert (rs + [r])[..|rs|] == rs;
  }

  lemma {:induction false} InsertIsStable(rs: seq<Receipt>, r: Receipt, at: nat)
    requires Sorted(rs)
    ensures OfInstant(Insert(rs, r), at) == OfInstant(rs, at) + if r.at == at then [r] else []
  {
    if rs == [] || rs[|rs| - 1].at <= r.at {
      OfInstantSnoc(rs, r, at);
    } else {
      var init, last := rs[..|rs| - 1], rs[|rs| - 1];
      InsertIsStable(init, r, at);
      OfInstantSnoc(Insert(init, r), last, at);
    }
  }

  /** The sort keeps what it is given, and receipts of one instant in the order they had. */
  lemma {:induction false} SortIsStable(rs: seq<Receipt>, at: nat)
    ensures OfInstant(ByCompletedAt(rs), at) == OfInstant(rs, at) && Sorted(ByCompletedAt(rs))
  {
    if rs != [] {
      var init, last := rs[..|rs| - 1], rs[|rs| - 1];
      SortIsStable(init, at);
      InsertIsStable(ByCompletedAt(init), last, at);
      InsertSorts(ByCompletedAt(init), last);
    }
  }

  lemma {:induction false} InsertSorts(rs: seq<Receipt>, r: Receipt)
    requires Sorted(rs)
    ensures Sorted(Insert(rs, r)) && forall x | x in Insert(rs, r) :: x in rs || x == r
  {
    if rs != [] && rs[|rs| - 1].at > r.at {
      var init, last := rs[..|rs| - 1], rs[|rs| - 1];
      InsertSorts(init, r);
      SnocFacts(Insert(init, r), last);
    }
  }

  lemma InsertFacts(rs: seq<Receipt>, r: Receipt)
    requires Sorted(rs) && DistinctKeys(rs) && forall x | x in rs :: x.key != r.key
    ensures Sorted(Insert(rs, r)) && DistinctKeys(Insert(rs, r))
    ensures |Insert(rs, r)| == |rs| + 1
    ensures forall x :: x in Insert(rs, r) <==> x in rs || x == r
  {
    if rs == [] {
    } else {
      var init, last := rs[..|rs| - 1], rs[|rs| - 1];
      assert rs == init + [last];
      SnocFacts(init, last);
      if last.at <= r.at {
        SnocFacts(rs, r);
      } else {
        InsertFacts(init, r);
        SnocFacts(Insert(init, r), last);
      }
    }
  }

  lemma SortFacts(rs: seq<Receipt>)
    requires DistinctKeys(rs)
    ensures Sorted(ByCompletedAt(rs)) && DistinctKeys(ByCompletedAt(rs))
    ensures |ByCompletedAt(rs)| == |rs|
    ensures forall x :: x in ByCompletedAt(rs) <==> x in rs
  {
    if rs != [] {
      var init, last := rs[..|rs| - 1], rs[|rs| - 1];
      assert rs == init + [last];
      SnocFacts(init, last);
      SortFacts(init);
      InsertFacts(ByCompletedAt(init), last);
    }
  }

  lemma AssignFacts(rs: seq<Receipt>, key: Key, at: nat)
    requires DistinctKeys(rs)
    ensures DistinctKeys(Assign(rs, key, at))
    ensures forall x :: x in Assign(rs, key, at) <==> x == Receipt(key, at) || (x in rs && x.key != key)
    ensures (forall x | x in rs :: x.key != key) ==> Assign(rs, key, at) == rs + [Receipt(key, at)]
    ensures |Assign(rs, key, at)| <= |rs| || forall x | x in rs :: x.key != key
  {
    var i := IndexOf(rs, key);
    if i < |rs| {
      assert rs[i] in rs;
      var out := rs[i := Receipt(key, at)];
      assert out[i] == Receipt(key, at);
      forall x | x in rs && x.key != key ensures x in out {
        var j :| 0 <= j < |rs| && rs[j] == x;
        assert out[j] == x;
      }
    } else {
      SnocFacts(rs, Receipt(key, at));
    }
  }

  lemma KeysHaveSize(rs: seq<Receipt>)
    requires DistinctKeys(rs)
    ensures |Keys(rs)| == |rs|
  {
    if rs != [] {
      var init, last := rs[..|rs| - 1], rs[|rs| - 1];
      assert rs == init + [last];
      SnocFacts(init, last);
      KeysHaveSize(init);
      assert Keys(rs) == Keys(init) + {last.key};
    }
  }

  /** The only receipt one record may drop beyond the old ones is the oldest of a full log. */
  lemma RecordShape(rs: seq<Receipt>, key: Key, read: nat, at: nat)
    requires Stored(rs) && read <= at
    requires forall r | r in rs :: r.at <= read
    ensures var sorted := ByCompletedAt(Assign(Completions(rs, read), key, at));
            && Sorted(sorted) && DistinctKeys(sorted) && |sorted| <= MAX_COMPLETIONS + 1
            && (|sorted| == MAX_COMPLETIONS + 1 ==> sorted == Completions(rs, read) + [Receipt(key, at)])
            && (forall x :: x in sorted <==>
                  x == Receipt(key, at) || (x in rs && x.at >= read - RETENTION_MS && x.key != key))
  {
    var live := Completions(rs, read);
    CompletionsFacts(rs, read);
    AssignFacts(live, key, at);
    SortFacts(Assign(live, key, at));
    if |Assign(live, key, at)| > MAX_COMPLETIONS {
      SnocFacts(live, Receipt(key, at));
      SortedIsFixed(live + [Receipt(key, at)]);
    }
  }

  lemma DropOldest(sorted: seq<Receipt>)
    requires Sorted(sorted) && DistinctKeys(sorted) && |sorted| <= MAX_COMPLETIONS + 1
    ensures Stored(Newest(sorted))
    ensures forall r | r in Newest(sorted) :: r in sorted
    ensures |sorted| > 0 ==> sorted[|sorted| - 1] in Newest(sorted)
    ensures |sorted| <= MAX_COMPLETIONS ==> Newest(sorted) == sorted
    ensures forall r | r in sorted && r !in Newest(sorted) ::
              |Newest(sorted)| == MAX_COMPLETIONS && forall x | x in Newest(sorted) :: r.at <= x.at
  {
    var out := Newest(sorted);
    if |sorted| > MAX_COMPLETIONS {
      assert out == sorted[1..];
      assert forall i | 0 <= i < |out| :: out[i] == sorted[i + 1];
      assert out[|out| - 1] == sorted[|sorted| - 1];
      forall i | 0 < i < |sorted| ensures sorted[i] in out {
        assert out[i - 1] == sorted[i];
      }
      forall x | x in out ensures sorted[0].at <= x.at {
        var i :| 0 <= i < |out| && out[i] == x;
      }
    }
  }

  /** One record keeps the new receipt, everything young and not crowded out, in time order. */
  lemma RecordFacts(rs: seq<Receipt>, key: Key, read: nat, at: nat)
    requires Stored(rs) && read <= at
    requires forall r | r in rs :: r.at <= read
    ensures Stored(Record(rs, key, read, at))
    ensures Receipt(key, at) in Record(rs, key, read, at)
    ensures forall r | r in Record(rs, key, read, at) :: r == Receipt(key, at) || (r in rs && r.key != key)
    ensures forall r | r in rs && r.key != key && r !in Record(rs, key, read, at) ::
              || r.at < read - RETENTION_MS
              || (&& |Record(rs, key, read, at)| == MAX_COMPLETIONS
                  && forall x | x in Record(rs, key, read, at) :: r.at <= x.at)
  {
    RecordShape(rs, key, read, at);
    DropOldest(ByCompletedAt(Assign(Completions(rs, read), key, at)));
  }

  /** A later record never takes anyone out of the receipts at or after `k`. */
  lemma CrowdGrows(history: map<Key, nat>, now: nat, key: Key, at: nat, k: Key)
    requires k in history && k != key && now <= at
    requires forall j | j in history :: history[j] <= now
    ensures |AtOrAfter(history, k)| <= |AtOrAfter(history[key := at], k)|
  {
    SubsetSize(AtOrAfter(history, k), AtOrAfter(history[key := at], k));
  }

  /** A full log of receipts at or after `k` crowds `k` out. */
  lemma FullLogCrowds(rs: seq<Receipt>, history: map<Key, nat>, k: Key)
    requires k in history && Stored(rs) && |rs| == MAX_COMPLETIONS
    requires forall r | r in rs :: r.key in history && history[r.key] == r.at >= history[k] && r.key != k
    ensures |AtOrAfter(history, k)| >= MAX_COMPLETIONS
  {
    KeysHaveSize(rs);
    SubsetSize(Keys(rs), AtOrAfter(history, k));
  }

  lemma RecordDrops(rs: seq<Receipt>, history: map<Key, nat>, now: nat, key: Key, read: nat, at: nat, k: Key)
    requires Tracks(rs, history, now) && now <= read <= at
    requires k in history && k != key && k !in Keys(Record(rs, key, read, at))
    ensures history[k] < at - RETENTION_MS || |AtOrAfter(history[key := at], k)| >= MAX_COMPLETIONS
  {
    RecordFacts(rs, key, read, at);
    CrowdGrows(history, now, key, at, k);
    if k in Keys(rs) {
      var r :| r in rs && r.key == k;
      if r.at >= read - RETENTION_MS {
        FullLogCrowds(Record(rs, key, read, at), history[key := at], k);
      }
    }
  }

  lemma RecordIsUpward(rs: seq<Receipt>, history: map<Key, nat>, now: nat, key: Key, read: nat, at: nat,
                       r: Receipt, k: Key)
    requires Tracks(rs, history, now) && now <= read <= at
    requires r in Record(rs, key, read, at) && k in history && k != key && history[k] > r.at
    ensures k in Keys(Record(rs, key, read, at))
  {
    RecordFacts(rs, key, read, at);
    assert r in rs && k in Keys(rs);
    var q :| q in rs && q.key == k;
    RecordIsYoung(rs, key, read, at, r);
    assert q in Record(rs, key, read, at);
  }

  /** What a record keeps is inside retention. */
  lemma RecordIsYoung(rs: seq<Receipt>, key: Key, read: nat, at: nat, r: Receipt)
    requires Stored(rs) && read <= at && forall x | x in rs :: x.at <= read
    requires r in Record(rs, key, read, at)
    ensures r.at >= read - RETENTION_MS
  {
    RecordShape(rs, key, read, at);
    DropOldest(ByCompletedAt(Assign(Completions(rs, read), key, at)));
  }

  lemma RecordJustifies(rs: seq<Receipt>, history: map<Key, nat>, now: nat, key: Key, read: nat, at: nat)
    requires Tracks(rs, history, now) && now <= read <= at
    ensures DropsJustified(Record(rs, key, read, at), history[key := at], at)
  {
    var out, after := Record(rs, key, read, at), history[key := at];
    assert key in Keys(out) by { RecordFacts(rs, key, read, at); }
    forall k | k in after && k !in Keys(out)
      ensures after[k] < at - RETENTION_MS || |AtOrAfter(after, k)| >= MAX_COMPLETIONS
    {
      RecordDrops(rs, history, now, key, read, at, k);
    }
  }

  lemma RecordUpward(rs: seq<Receipt>, history: map<Key, nat>, now: nat, key: Key, read: nat, at: nat)
    requires Tracks(rs, history, now) && now <= read <= at
    ensures Upward(Record(rs, key, read, at), history[key := at])
  {
    var out, after := Record(rs, key, read, at), history[key := at];
    assert key in Keys(out) by {
      RecordFacts(rs, key, read, at);
      assert Receipt(key, at) in out;
    }
    forall r, k | r in out && k in after && after[k] > r.at ensures k in Keys(out) {
      if k != key {
        RecordIsUpward(rs, history, now, key, read, at, r, k);
      }
    }
  }

  /** Recording a completion keeps the pruned log in step with the full history. */
  lemma RecordTracks(rs: seq<Receipt>, history: map<Key, nat>, now: nat, key: Key, read: nat, at: nat)
    requires Tracks(rs, history, now) && now <= read <= at
    ensures Tracks(Record(rs, key, read, at), history[key := at], at)
  {
    RecordFacts(rs, key, read, at);
    RecordJustifies(rs, history, now, key, read, at);
    RecordUpward(rs, history, now, key, read, at);
  }

  /** A retained receipt is always found. */
  lemma RetainedIsFound(rs: seq<Receipt>, history: map<Key, nat>, now: nat, key: Key, later: nat)
    requires Tracks(rs, history, now) && now <= later
    requires Retained(history, key, later)
    ensures HasCompletion(rs, key, later)
  {
    CompletionsFacts(rs, later);
    var r :| r in rs && r.key == key;
    assert r in Completions(rs, later);
  }

  /** A stored receipt has fewer than 4096 strictly newer ones: those are stored too. */
  lemma StoredIsNotCrowded(rs: seq<Receipt>, history: map<Key, nat>, r: Receipt)
    requires Stored(rs) && Truthful(rs, history) && Upward(rs, history) && r in rs
    ensures |StrictlyAfter(history, r.key)| < MAX_COMPLETIONS
  {
    var newer := StrictlyAfter(history, r.key);
    assert newer + {r.key} <= Keys(rs);
    SubsetSize(newer + {r.key}, Keys(rs));
    KeysHaveSize(rs);
  }

  /** A receipt past its bound is never found, so the two-sided bound is sharp up to equal times. */
  lemma CrowdedOutIsForgotten(rs: seq<Receipt>, history: map<Key, nat>, now: nat, key: Key, later: nat)
    requires Tracks(rs, history, now) && now <= later
    requires CrowdedOut(history, key, later)
    ensures !HasCompletion(rs, key, later)
  {
    CompletionsFacts(rs, later);
    forall r | r in Completions(rs, later) ensures r.key != key {
      assert r in rs;
      StoredIsNotCrowded(rs, history, r);
    }
  }
}
