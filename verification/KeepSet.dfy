/** Which ids an admission cap keeps: the lowest ones in the order `toSorted` gives. */
module KeepSet {
  import opened Collections
  import opened Strings

  function Below(ids: set<string>, id: string): set<string> {
    set k | k in ids && Before(k, id)
  }

  /** Position of `id` in the sorted ids, which is how many of them come before it. */
  function Rank(ids: set<string>, id: string): nat {
    |Below(ids, id)|
  }

  predicate WithinLimit(ids: set<string>, id: string, cap: nat) {
    Rank(ids, id) < cap
  }

  function Kept(ids: set<string>, cap: nat): set<string> {
    set id | id in ids && WithinLimit(ids, id, cap)
  }

  // ---- ranks are positions ----

  predicate StrictlySorted(listing: seq<string>) {
    forall a, b | 0 <= a < b < |listing| :: Before(listing[a], listing[b])
  }

  function Members(listing: seq<string>): set<string> {
    set s | s in listing
  }

  lemma {:induction false} ListingSize(listing: seq<string>)
    requires StrictlySorted(listing)
    ensures |Members(listing)| == |listing|
  {
    if listing != [] {
      var init, last := listing[..|listing| - 1], listing[|listing| - 1];
      ListingSize(init);
      assert listing == init + [last];
      assert Members(listing) == Members(init) + {last};
      assert last !in init by { BeforeIsStrict(last, last); }
    }
  }

  /** In any strictly sorted listing of the ids, `id` sits at its rank: `indexOf` finds it there. */
  lemma RankIsIndexOf(listing: seq<string>, i: nat)
    requires i < |listing| && StrictlySorted(listing)
    ensures Rank(Members(listing), listing[i]) == i
  {
    var prefix := listing[..i];
    forall s | s in prefix ensures Before(s, listing[i]) && s in listing {
      var j :| 0 <= j < i && prefix[j] == s;
      assert listing[j] == s;
    }
    forall s | s in listing && Before(s, listing[i]) ensures s in prefix {
      var k :| 0 <= k < |listing| && listing[k] == s;
      BeforeIsStrict(s, listing[i]);
      assert k < i;
      assert prefix[k] == s;
    }
    assert Below(Members(listing), listing[i]) == Members(prefix);
    ListingSize(prefix);
  }

  /** A non-empty set of ids has a greatest one. */
  lemma {:induction false} Greatest(ids: set<string>) returns (top: string)
    requires ids != {}
    ensures top in ids && forall k | k in ids && k != top :: Before(k, top)
  {
    var x :| x in ids;
    if ids == {x} {
      top := x;
    } else {
      var t := Greatest(ids - {x});
      BeforeIsStrict(x, t);
      if Before(x, t) {
        top := t;
      } else {
        top := x;
        forall k | k in ids && k != x && k != t ensures Before(k, x) {
          BeforeIsTransitive(k, t, x);
        }
      }
    }
  }

  lemma RankBound(ids: set<string>, id: string)
    requires id in ids
    ensures Rank(ids, id) < |ids|
  {
    BeforeIsStrict(id, id);
    SubsetSize(Below(ids, id), ids - {id});
  }

  // ---- the keep set ----

  /** The cap keeps exactly the min(cap, n) lowest ids. */
  lemma {:induction false} KeepsTheLowest(ids: set<string>, cap: nat)
    ensures |Kept(ids, cap)| == if cap < |ids| then cap else |ids|
    ensures forall kept, dropped | kept in Kept(ids, cap) && dropped in ids - Kept(ids, cap) ::
              Before(kept, dropped)
  {
    KeptSize(ids, cap);
    forall kept, dropped | kept in Kept(ids, cap) && dropped in ids - Kept(ids, cap)
      ensures Before(kept, dropped)
    {
      BeforeIsStrict(kept, dropped);
      if Before(dropped, kept) {
        forall k | k in Below(ids, dropped) ensures k in Below(ids, kept) {
          BeforeIsTransitive(k, dropped, kept);
        }
        SubsetSize(Below(ids, dropped), Below(ids, kept));
      }
    }
  }

  lemma {:induction false} KeptSize(ids: set<string>, cap: nat)
    ensures |Kept(ids, cap)| == if cap < |ids| then cap else |ids|
    decreases |ids|
  {
    if |ids| <= cap {
      forall id | id in ids ensures WithinLimit(ids, id, cap) { RankBound(ids, id); }
      assert Kept(ids, cap) == ids;
    } else {
      var top := Greatest(ids);
      var rest := ids - {top};
      assert Below(ids, top) == rest by { BeforeIsStrict(top, top); }
      forall id | id in rest ensures Below(ids, id) == Below(rest, id) { BeforeIsStrict(id, top); }
      KeptSize(rest, cap);
      assert Kept(ids, cap) == Kept(rest, cap);
    }
  }

  /** A fresh id admitted below the cap leaves every id, itself included, inside the limit. */
  lemma FreshFits(ids: set<string>, newcomer: string, cap: nat)
    requires |ids| < cap && newcomer !in ids
    ensures forall id | id in ids + {newcomer} :: WithinLimit(ids + {newcomer}, id, cap)
  {
    forall id | id in ids + {newcomer} ensures WithinLimit(ids + {newcomer}, id, cap) {
      RankBound(ids + {newcomer}, id);
    }
  }

  /** Releasing ids never pushes a kept one out, whatever the cap. */
  lemma ReleaseKeeps(ids: set<string>, left: set<string>, cap: nat)
    requires left <= ids
    ensures Kept(ids, cap) * left <= Kept(left, cap)
  {
    forall id | id in Kept(ids, cap) * left ensures WithinLimit(left, id, cap) {
      SubsetSize(Below(left, id), Below(ids, id));
    }
  }

  /** After a cap shrink the survivors leave only by stopping: while ids are only released, every
      survivor still present survives. */
  lemma {:induction false} SurvivorsOnlyStop(history: seq<set<string>>, cap: nat, i: nat, id: string)
    requires i < |history|
    requires forall j | 0 < j < |history| :: history[j] <= history[j - 1]
    requires id in Kept(history[0], cap) && id in history[i]
    ensures id in Kept(history[i], cap)
  {
    if i > 0 {
      SurvivorsOnlyStop(history, cap, i - 1, id);
      ReleaseKeeps(history[i - 1], history[i], cap);
    }
  }
}
