/** What closing a connection does to the tracking table and to the proxies: `cleanup_children`,
    with destructors that delete whatever a node owns and untrack the proxies among it. */
module Teardown {
  import opened Packages
  import opened Mirror
  import MirrorProof
  import MirrorRuns
  import MirrorScenes
  import MirrorWaits

  /** `m` hangs, link by link, from `p` in ownership. */
  predicate Under(owner: map<Node, Node>, m: Node, p: Node)
    decreases |owner|
  {
    m in owner && (owner[m] == p || Under(owner - {m}, owner[m], p))
  }

  /** What a run of the loop works on. `deleted` counts how often each node was deleted; `touched`
      tells that a deleted node was taken from the table and used. */
  datatype Scene = Scene(tracked: map<Nid, Node>, owner: map<Node, Node>, deleted: multiset<Node>, touched: bool)

  /** The connection's root, and its proxies with the nid each stores. */
  datatype Setting = Setting(root: Node, own: map<Node, Nid>)

  function Killed(owner: map<Node, Node>, n: Node): set<Node> {
    {n} + set m | m in owner && Under(owner, m, n)
  }

  function NidsOf(c: Setting, nodes: set<Node>): set<Nid> { set m | m in nodes && m in c.own :: c.own[m] }

  /** `delete n`: with it goes what it owns; the proxies among that remove their nids. */
  function Deleting(c: Setting, s: Scene, n: Node): Scene {
    var killed := Killed(s.owner, n);
    s.(tracked := s.tracked - NidsOf(c, killed), deleted := s.deleted + multiset(killed))
  }

  /** The loop's body, for the first entry of the table. */
  function Step(c: Setting, s: Scene): Scene
    requires s.tracked != map[]
  {
    var k := FirstKey(s.tracked);
    var n := s.tracked[k];
    if n == c.root then s.(tracked := s.tracked - {k})
    else
      var detached := s.(owner := s.owner - {n}, touched := s.touched || n in s.deleted);
      if n in c.own then Deleting(c, detached, n) else detached.(tracked := s.tracked - {k})
  }

  // ---------- What the loop keeps ----------

  /** Every proxy in the table is stored under its own nid. */
  predicate OwnNids(c: Setting, tracked: map<Nid, Node>) {
    forall k :: k in tracked && tracked[k] in c.own ==> c.own[tracked[k]] == k
  }

  /** Nothing else is stored there: an entry that a fetch overwrote breaks that. */
  predicate NoNamesakes(c: Setting, tracked: map<Nid, Node>) {
    forall m :: m in c.own && c.own[m] in tracked ==> tracked[c.own[m]] == m
  }

  /** A node goes exactly when the node that owns it goes. */
  predicate Together(s: Scene) {
    forall m :: m in s.owner ==> (m in s.deleted <==> s.owner[m] in s.deleted)
  }

  predicate OnceEach(s: Scene) { forall n :: n in s.deleted ==> s.deleted[n] == 1 }

  predicate Orderly(c: Setting, s: Scene) {
    && OwnNids(c, s.tracked) && Together(s) && OnceEach(s)
    && c.root !in c.own && c.root !in s.owner && c.root !in s.deleted
    && (forall k :: k in s.tracked && s.tracked[k] in c.own ==> s.tracked[k] !in s.deleted)
  }

  /** What has taken a proxy's entry is a proxy. */
  predicate ProxiesOnly(c: Setting, tracked: map<Nid, Node>) {
    forall m :: m in c.own && c.own[m] in tracked ==> tracked[c.own[m]] in c.own
  }

  /** Such a scene of a connection on which no fetch overwrote anything. */
  predicate Proper(c: Setting, s: Scene) { Orderly(c, s) && NoNamesakes(c, s.tracked) }

  /** Nothing has been deleted yet; the root is nobody's. */
  predicate Opening(c: Setting, s: Scene) {
    OwnNids(c, s.tracked) && c.root !in c.own && c.root !in s.owner && s.deleted == multiset{} && !s.touched
  }

  // ---------- Ownership ----------

  lemma {:induction false} UnderMore(o: map<Node, Node>, o': map<Node, Node>, m: Node, p: Node)
    requires Under(o, m, p) && forall n :: n in o ==> n in o' && o'[n] == o[n]
    ensures Under(o', m, p)
    decreases |o|
  {
    if o[m] != p {
      UnderMore(o - {m}, o' - {m}, o[m], p);
    }
  }

  lemma {:induction false} UnderAround(o: map<Node, Node>, q: Node, p: Node, m: Node)
    requires Under(o, q, p)
    ensures Under(o - {m}, q, p) || Under(o, m, p)
    decreases |o|
  {
    if q != m && o[q] != p {
      UnderAround(o - {q}, o[q], p, m);
      assert (o - {q}) - {m} == (o - {m}) - {q};
      if Under(o - {q}, m, p) {
        UnderMore(o - {q}, o, m, p);
      }
    }
  }

  /** Hanging under `p` is hanging under it directly, or under something that does. */
  lemma UnderStep(o: map<Node, Node>, m: Node, p: Node)
    requires m in o
    ensures Under(o, m, p) <==> o[m] == p || Under(o, o[m], p)
  {
    if Under(o, m, p) && o[m] != p {
      UnderMore(o - {m}, o, o[m], p);
    }
    if Under(o, o[m], p) {
      UnderAround(o, o[m], p, m);
    }
  }

  /** What hangs together lives and dies together. */
  lemma {:induction false} UnderTogether(s: Scene, o: map<Node, Node>, m: Node, p: Node)
    requires Under(o, m, p)
    requires forall n :: n in o ==> (n in s.deleted <==> o[n] in s.deleted)
    ensures m in s.deleted <==> p in s.deleted
    decreases |o|
  {
    if o[m] != p {
      UnderTogether(s, o - {m}, o[m], p);
    }
  }

  // ---------- Deleting a proxy ----------

  lemma DeletedStill(s: multiset<Node>, k: set<Node>)
    ensures forall n :: n in s + multiset(k) <==> n in s || n in k
    ensures (forall n :: n in s ==> s[n] == 1) && (forall n :: n in k ==> n !in s)
      ==> forall n :: n in s + multiset(k) ==> (s + multiset(k))[n] == 1
  {
    assert forall n :: multiset(k)[n] == if n in k then 1 else 0;
  }

  lemma KilledAlive(s: Scene, n: Node)
    requires Together(s) && n !in s.deleted
    ensures forall m :: m in Killed(s.owner, n) ==> m !in s.deleted
  {
    forall m | m in Killed(s.owner, n) ensures m !in s.deleted {
      if m != n {
        UnderTogether(s, s.owner, m, n);
      }
    }
  }

  lemma DeletingTogether(c: Setting, s: Scene, n: Node)
    requires Together(s) && n !in s.owner
    ensures Together(Deleting(c, s, n))
  {
    DeletedStill(s.deleted, Killed(s.owner, n));
    forall m | m in s.owner
      ensures m in Killed(s.owner, n) <==> s.owner[m] in Killed(s.owner, n)
    {
      UnderStep(s.owner, m, n);
    }
  }

  lemma DeletingOrderly(c: Setting, s: Scene, n: Node)
    requires Orderly(c, s) && n !in s.owner && n != c.root && n !in s.deleted
    ensures Orderly(c, Deleting(c, s, n))
  {
    DeletingTogether(c, s, n);
    KilledAlive(s, n);
    DeletedStill(s.deleted, Killed(s.owner, n));
    hide Together, Under;
  }

  lemma StepOrderly(c: Setting, s: Scene)
    requires Orderly(c, s) && s.tracked != map[]
    ensures Orderly(c, Step(c, s))
    ensures forall j :: j in Step(c, s).tracked ==> j in s.tracked && Step(c, s).tracked[j] == s.tracked[j]
    ensures FirstKey(s.tracked) !in Step(c, s).tracked
  {
    var k := FirstKey(s.tracked);
    var n := s.tracked[k];
    if n != c.root {
      var detached := s.(owner := s.owner - {n}, touched := s.touched || n in s.deleted);
      assert Orderly(c, detached);
      if n in c.own {
        DeletingOrderly(c, detached, n);
        assert n in Killed(detached.owner, n);
      }
    }
    hide Under;
  }

  lemma StepProper(c: Setting, s: Scene)
    requires Proper(c, s) && s.tracked != map[]
    ensures Proper(c, Step(c, s))
  {
    StepOrderly(c, s);
    hide Orderly, Step;
  }

  lemma OpeningOrderly(c: Setting, s: Scene)
    requires Opening(c, s)
    ensures Orderly(c, s)
  {
  }

  /** The whole loop. */
  function Cleanup(c: Setting, s: Scene): Scene
    requires Orderly(c, s)
    decreases |s.tracked|
  {
    if s.tracked == map[] then s else
      StepShrinks(c, s);
      Cleanup(c, Step(c, s))
  }

  lemma FewerKeys(t: map<Nid, Node>, t': map<Nid, Node>, k: Nid)
    requires t'.Keys <= t.Keys && k in t && k !in t'
    ensures |t'| < |t|
  {
    assert t'.Keys <= t.Keys - {k};
    SubsetSize(t'.Keys, t.Keys - {k});
  }

  lemma {:induction false} SubsetSize(a: set<Nid>, b: set<Nid>)
    requires a <= b
    ensures |a| <= |b|
  {
    if a != {} {
      var x :| x in a;
      SubsetSize(a - {x}, b - {x});
    }
  }

  lemma StepShrinks(c: Setting, s: Scene)
    requires Orderly(c, s) && s.tracked != map[]
    ensures Orderly(c, Step(c, s)) && |Step(c, s).tracked| < |s.tracked|
  {
    StepOrderly(c, s);
    FewerKeys(s.tracked, Step(c, s).tracked, FirstKey(s.tracked));
    hide Orderly, Step;
  }

  // ---------- What is deleted ----------

  /** The entries that go with a deleted proxy are those of the proxies deleted. */
  lemma DeletingEntries(c: Setting, s: Scene, n: Node)
    requires OwnNids(c, s.tracked) && NoNamesakes(c, s.tracked)
    ensures var t := Deleting(c, s, n).tracked; forall k :: k in s.tracked ==>
      (k in t <==> !(s.tracked[k] in c.own && s.tracked[k] in Killed(s.owner, n)))
  {
    hide Killed;
    var killed := Killed(s.owner, n);
    var nids := NidsOf(c, killed);
    forall k | k in s.tracked ensures k in nids <==> s.tracked[k] in c.own && s.tracked[k] in killed {
      if k in nids {
        var m :| m in killed && m in c.own && c.own[m] == k;
      }
    }
  }

  /** A proxy leaves the table by being deleted. */
  lemma StepDeletes(c: Setting, s: Scene, k: Nid)
    requires Proper(c, s) && k in s.tracked && s.tracked[k] in c.own && k !in Step(c, s).tracked
    ensures s.tracked[k] in Step(c, s).deleted
  {
    var j := FirstKey(s.tracked);
    var n := s.tracked[j];
    var detached := s.(owner := s.owner - {n}, touched := s.touched || n in s.deleted);
    DeletedStill(s.deleted, Killed(detached.owner, n));
    DeletingEntries(c, detached, n);
    hide Under, Killed, Together, OnceEach;
    if k != j {
      assert n != c.root && n in c.own;
    } else {
      assert n in Killed(detached.owner, n) by { KilledSelf(detached.owner, n); }
    }
  }

  lemma KilledOwned(owner: map<Node, Node>, n: Node)
    ensures forall m :: m in Killed(owner, n) ==> m == n || m in owner
  {
    hide Under;
  }

  lemma KilledSelf(owner: map<Node, Node>, n: Node)
    ensures n in Killed(owner, n)
  {
  }

  lemma StepKeepsDeleted(c: Setting, s: Scene)
    requires Orderly(c, s) && s.tracked != map[]
    ensures forall n :: n in s.deleted ==> n in Step(c, s).deleted
  {
    var n := s.tracked[FirstKey(s.tracked)];
    DeletedStill(s.deleted, Killed(s.owner - {n}, n));
    hide Under;
  }

  /** Closing ends with the table empty, no node has been deleted twice, and the root not at all; and if
      no fetch overwrote anything, every proxy that was tracked has been deleted, once. */
  lemma {:induction false} CleanupDeletesProxies(c: Setting, s: Scene)
    requires Orderly(c, s)
    ensures var t := Cleanup(c, s);
      && t.tracked == map[] && Orderly(c, t)
      && (forall n :: n in s.deleted ==> n in t.deleted)
      && (forall n :: n in t.deleted ==> t.deleted[n] == 1)
      && t.deleted[c.root] == 0
      && (NoNamesakes(c, s.tracked) ==>
            forall k :: k in s.tracked && s.tracked[k] in c.own ==> t.deleted[s.tracked[k]] == 1)
    decreases |s.tracked|
  {
    if s.tracked != map[] {
      var s1 := Step(c, s);
      StepShrinks(c, s);
      StepOrderly(c, s);
      StepKeepsDeleted(c, s);
      CleanupDeletesProxies(c, s1);
      if NoNamesakes(c, s.tracked) {
        StepProper(c, s);
        forall k | k in s.tracked && s.tracked[k] in c.own ensures s.tracked[k] in s1.deleted || k in s1.tracked {
          if k !in s1.tracked {
            StepDeletes(c, s, k);
          }
        }
      }
      hide Step, Together, OwnNids, OnceEach, NoNamesakes;
    }
  }

  // ---------- What is missed after an overwriting fetch ----------

  /** The loop as far as it works on entries below `k`. */
  function Below(c: Setting, s: Scene, k: Nid): Scene
    requires Orderly(c, s)
    decreases |s.tracked|
  {
    if s.tracked == map[] || FirstKey(s.tracked) >= k then s else
      StepShrinks(c, s);
      Below(c, Step(c, s), k)
  }

  lemma {:induction false} BelowKeepsDeleted(c: Setting, s: Scene, k: Nid)
    requires Orderly(c, s)
    ensures forall n :: n in s.deleted ==> n in Below(c, s, k).deleted
    decreases |s.tracked|
  {
    if s.tracked != map[] && FirstKey(s.tracked) < k {
      StepShrinks(c, s);
      StepKeepsDeleted(c, s);
      hide Step, Orderly;
      BelowKeepsDeleted(c, Step(c, s), k);
    }
  }

  /** Another proxy with this nid has been deleted. */
  predicate NamesakeGone(c: Setting, before: multiset<Node>, after: multiset<Node>, p: Node, k: Nid) {
    exists m :: m != p && m in c.own && c.own[m] == k && m in after && m !in before
  }

  /** The proxy's entry goes, with another proxy of its nid, before its turn comes. */
  predicate Skipped(c: Setting, s: Scene, i: Nid)
    requires Orderly(c, s)
  {
    && i in s.tracked && s.tracked[i] in c.own
    && NamesakeGone(c, s.deleted, Below(c, s, i).deleted, s.tracked[i], i)
  }

  /** An entry above the one at work leaves the table exactly if a proxy with its nid is deleted. */
  lemma EntryGoes(c: Setting, s: Scene, k: Nid)
    requires Orderly(c, s) && k in s.tracked && k != FirstKey(s.tracked)
    ensures var s1 := Step(c, s);
      k !in s1.tracked <==> exists m :: m in c.own && c.own[m] == k && m in s1.deleted && m !in s.deleted
  {
    var f := FirstKey(s.tracked);
    var n := s.tracked[f];
    if n != c.root && n in c.own {
      var d := s.(owner := s.owner - {n}, touched := s.touched || n in s.deleted);
      var killed := Killed(d.owner, n);
      DetachedTogether(s, n);
      KilledAlive(d, n);
      DeletedStill(s.deleted, killed);
      hide Under, Killed, Together, OnceEach;
    }
  }

  lemma DetachedTogether(s: Scene, n: Node)
    requires Together(s)
    ensures Together(s.(owner := s.owner - {n}))
  {
  }

  lemma NotYet(c: Setting, s: Scene, k: Nid)
    requires Orderly(c, s) && k in s.tracked && s.tracked[k] in c.own && k != FirstKey(s.tracked)
    ensures s.tracked[k] != s.tracked[FirstKey(s.tracked)] && s.tracked[k] !in s.deleted
    ensures var s1 := Step(c, s); if k in s1.tracked then s1.tracked[k] == s.tracked[k]
      else !IsTracked(s1.tracked, s.tracked[k])
  {
    StepOrderly(c, s);
    hide Together, OnceEach, Step, FirstKey;
  }

  /** A proxy that nobody owns does not go with another. */
  lemma Unowned(c: Setting, s: Scene, n: Node)
    requires s.tracked != map[] && n !in s.owner && n != s.tracked[FirstKey(s.tracked)] && n !in s.deleted
    ensures n !in Step(c, s).deleted
  {
    var p := s.tracked[FirstKey(s.tracked)];
    DeletedStill(s.deleted, Killed(s.owner - {p}, p));
    KilledOwned(s.owner - {p}, p);
    hide FirstKey, Killed;
  }

  lemma OwnedTogether(c: Setting, s: Scene, n: Node)
    requires Orderly(c, s) && n in s.owner
    ensures n in s.deleted <==> s.owner[n] in s.deleted
  {
    hide OnceEach, OwnNids;
  }

  /** A proxy, before its own turn, goes when the node that owns it goes. */
  lemma GoesWithOwner(c: Setting, s: Scene, n: Node)
    requires Orderly(c, s) && s.tracked != map[] && n != s.tracked[FirstKey(s.tracked)] && n !in s.deleted
    ensures var s1 := Step(c, s);
      && (n in s1.owner <==> n in s.owner) && (n in s1.owner ==> s1.owner[n] == s.owner[n])
      && (n in s1.deleted <==> n in s.owner && s.owner[n] in s1.deleted)
  {
    StepOwner(c, s, n);
    StepOrderly(c, s);
    hide Orderly, Step, FirstKey;
    if n in s.owner {
      OwnedTogether(c, Step(c, s), n);
    } else {
      Unowned(c, s, n);
    }
  }

  /** What is not tracked stays with its owner. */
  lemma {:induction false} UntrackedStays(c: Setting, s: Scene, n: Node)
    requires Orderly(c, s) && n in s.owner && !IsTracked(s.tracked, n)
    ensures n in Cleanup(c, s).owner && Cleanup(c, s).owner[n] == s.owner[n]
    decreases |s.tracked|
  {
    if s.tracked != map[] {
      StepShrinks(c, s);
      StepOrderly(c, s);
      StepOwner(c, s, n);
      assert s.tracked[FirstKey(s.tracked)] != n;
      hide Step, Orderly, FirstKey;
      UntrackedStays(c, Step(c, s), n);
    }
  }

  /** Once its entry is gone, a proxy goes with its owner or not at all. */
  lemma AfterwardsWithOwner(c: Setting, s: Scene, n: Node)
    requires Orderly(c, s) && n in c.own && !IsTracked(s.tracked, n) && n !in s.deleted
    ensures n in Cleanup(c, s).deleted <==> n in s.owner && s.owner[n] in Cleanup(c, s).deleted
  {
    CleanupDeletesProxies(c, s);
    if n in s.owner {
      UntrackedStays(c, s, n);
      hide Orderly, IsTracked;
      OwnedTogether(c, Cleanup(c, s), n);
    } else if n in Cleanup(c, s).deleted {
      OnlyProxiesAndTheirs(c, s, n);
      hide Orderly, Cleanup;
      assert false;
    }
  }

  /** A tracked proxy is missed by closing exactly if another proxy with its nid, as a fetch that overwrote
      the entry leaves behind, is deleted before its turn comes, and what owns it, if anything does, is not
      deleted either. One whose insertion was refused has no owner. */
  lemma {:induction false} MissedIff(c: Setting, s: Scene, k: Nid)
    requires Orderly(c, s) && k in s.tracked && s.tracked[k] in c.own
    ensures var p, t := s.tracked[k], Cleanup(c, s);
      p !in t.deleted <==> Skipped(c, s, k) && !(p in s.owner && s.owner[p] in t.deleted)
    decreases |s.tracked|
  {
    var p, f, s1 := s.tracked[k], FirstKey(s.tracked), Step(c, s);
    StepShrinks(c, s);
    CleanupDeletesProxies(c, s1);
    if f == k {
      assert p in s1.deleted by { OwnTurn(c, s); }
      hide Step, Orderly;
    } else {
      NotYet(c, s, k);
      GoesWithOwner(c, s, p);
      EntryGoes(c, s, k);
      StepKeepsDeleted(c, s);
      BelowKeepsDeleted(c, s1, k);
      hide Step, Orderly, FirstKey;
      if k in s1.tracked {
        MissedIff(c, s1, k);
      } else if p !in s1.deleted {
        AfterwardsWithOwner(c, s1, p);
        var m :| m in c.own && c.own[m] == k && m in s1.deleted && m !in s.deleted;
        assert NamesakeGone(c, s.deleted, Below(c, s, k).deleted, p, k);
      }
    }
  }

  lemma OwnTurn(c: Setting, s: Scene)
    requires Orderly(c, s) && s.tracked != map[] && s.tracked[FirstKey(s.tracked)] in c.own
    ensures s.tracked[FirstKey(s.tracked)] in Step(c, s).deleted
  {
    var n := s.tracked[FirstKey(s.tracked)];
    KilledSelf(s.owner - {n}, n);
    DeletedStill(s.deleted, Killed(s.owner - {n}, n));
    hide Under, Killed;
  }

  /** Where no fetch overwrote anything there is no such entry. */
  lemma NothingIsSkipped(c: Setting, s: Scene, i: Nid)
    requires Proper(c, s)
    ensures !Skipped(c, s, i)
  {
  }

  lemma FirstIsNotSkipped(c: Setting, s: Scene)
    requires Orderly(c, s) && s.tracked != map[]
    ensures !Skipped(c, s, FirstKey(s.tracked))
  {
  }

  lemma SkippedLater(c: Setting, s: Scene, i: Nid)
    requires Orderly(c, s) && s.tracked != map[] && i in Step(c, s).tracked
    ensures Orderly(c, Step(c, s)) && (Skipped(c, Step(c, s), i) <==> Skipped(c, s, i))
  {
    StepOrderly(c, s);
    StepTable(c, s);
    EntryGoes(c, s, i);
    StepKeepsDeleted(c, s);
    hide Step, Orderly;
    assert Below(c, s, i) == Below(c, Step(c, s), i);
  }

  /** A proxy whose entry goes in this step is deleted, or skipped. */
  lemma GoneIsSkipped(c: Setting, s: Scene, i: Nid)
    requires Orderly(c, s) && i in s.tracked && s.tracked[i] in c.own && i != FirstKey(s.tracked)
    requires i !in Step(c, s).tracked && s.tracked[i] !in Step(c, s).deleted
    ensures Skipped(c, s, i)
  {
    EntryGoes(c, s, i);
    StepOrderly(c, s);
    BelowKeepsDeleted(c, Step(c, s), i);
    hide Step, Orderly;
    assert Below(c, s, i) == Below(c, Step(c, s), i);
  }

  /** What is deleted is a tracked proxy, or is owned, through whatever else, by one. */
  predicate Expected(c: Setting, s: Scene, n: Node) {
    exists k :: k in s.tracked && s.tracked[k] in c.own && (s.tracked[k] == n || Under(s.owner, n, s.tracked[k]))
  }

  lemma StepExpected(c: Setting, s: Scene, n: Node)
    requires Orderly(c, s) && s.tracked != map[] && n in Step(c, s).deleted
    ensures n in s.deleted || Expected(c, s, n)
  {
    var k := FirstKey(s.tracked);
    var p := s.tracked[k];
    DeletedStill(s.deleted, Killed(s.owner - {p}, p));
    if n !in s.deleted && n != p {
      UnderMore(s.owner - {p}, s.owner, n, p);
    }
    hide Under;
  }

  lemma LaterExpected(c: Setting, s: Scene, n: Node)
    requires Orderly(c, s) && s.tracked != map[] && Expected(c, Step(c, s), n)
    ensures Expected(c, s, n)
  {
    var s1 := Step(c, s);
    StepOrderly(c, s);
    var k :| k in s1.tracked && s1.tracked[k] in c.own && (s1.tracked[k] == n || Under(s1.owner, n, s1.tracked[k]));
    if s1.tracked[k] != n {
      UnderMore(s1.owner, s.owner, n, s1.tracked[k]);
    }
    hide Under, Orderly;
  }

  /** A node of this end goes only if a tracked proxy owns it, directly or not. */
  lemma {:induction false} OnlyProxiesAndTheirs(c: Setting, s: Scene, n: Node)
    requires Orderly(c, s) && n in Cleanup(c, s).deleted
    ensures n in s.deleted || Expected(c, s, n)
    decreases |s.tracked|
  {
    if s.tracked != map[] {
      StepShrinks(c, s);
      OnlyProxiesAndTheirs(c, Step(c, s), n);
      if n in Step(c, s).deleted {
        StepExpected(c, s, n);
      } else {
        LaterExpected(c, s, n);
      }
      hide Step, Orderly, Expected;
    }
  }

  // ---------- What is left where it was ----------

  predicate IsTracked(tracked: map<Nid, Node>, n: Node) { exists k :: k in tracked && tracked[k] == n }

  /** A step takes a node out of its owner's hands exactly if the entry at work is the node's. */
  lemma StepOwner(c: Setting, s: Scene, n: Node)
    requires Orderly(c, s) && s.tracked != map[]
    ensures var s1 := Step(c, s);
      && (n in s1.owner <==> n in s.owner && n != s.tracked[FirstKey(s.tracked)])
      && (n in s1.owner ==> s1.owner[n] == s.owner[n])
  {
    hide Under, Together, OnceEach, Killed, OwnNids;
  }

  /** It is the turn of one of the node's entries at some time. */
  ghost predicate HasTurn(c: Setting, s: Scene, n: Node)
    requires Orderly(c, s)
  {
    exists k :: k in s.tracked && s.tracked[k] == n && !Skipped(c, s, k)
  }

  /** An entry that a step removes is the one at work, or a proxy's that is deleted or skipped. */
  lemma StepTurn(c: Setting, s: Scene, n: Node)
    requires Orderly(c, s) && ProxiesOnly(c, s.tracked) && s.tracked != map[] && Orderly(c, Step(c, s))
    requires n !in Step(c, s).deleted && n != s.tracked[FirstKey(s.tracked)] && n != c.root
    ensures HasTurn(c, Step(c, s), n) <==> HasTurn(c, s, n)
  {
    var s1 := Step(c, s);
    StepTable(c, s);
    hide Step, Orderly, Skipped;
    forall k | k in s.tracked && s.tracked[k] == n && !Skipped(c, s, k)
      ensures k in s1.tracked && s1.tracked[k] == n && !Skipped(c, s1, k)
    {
      if k !in s1.tracked {
        TurnGone(c, s, k);
        assert false;
      }
      SkippedLater(c, s, k);
    }
    forall k | k in s1.tracked && s1.tracked[k] == n && !Skipped(c, s1, k)
      ensures k in s.tracked && s.tracked[k] == n && !Skipped(c, s, k)
    {
      SkippedLater(c, s, k);
    }
  }

  /** The entry of a node of this end stays until its turn. */
  lemma PlainWaits(c: Setting, s: Scene, k: Nid)
    requires ProxiesOnly(c, s.tracked) && s.tracked != map[]
    ensures Plain(c, s, k) && k != FirstKey(s.tracked) ==> k in Step(c, s).tracked
  {
    var n := s.tracked[FirstKey(s.tracked)];
    PlainStays(c, s.(owner := s.owner - {n}, touched := s.touched || n in s.deleted), n);
    hide Deleting, FirstKey;
  }

  lemma TurnGone(c: Setting, s: Scene, k: Nid)
    requires Orderly(c, s) && ProxiesOnly(c, s.tracked) && k in s.tracked && k !in Step(c, s).tracked
    requires k != FirstKey(s.tracked) && s.tracked[k] != c.root
    ensures s.tracked[k] in Step(c, s).deleted || Skipped(c, s, k)
  {
    PlainWaits(c, s, k);
    hide Orderly, Skipped, Step, FirstKey;
    if s.tracked[k] in c.own && s.tracked[k] !in Step(c, s).deleted {
      GoneIsSkipped(c, s, k);
    }
  }

  lemma StepTable(c: Setting, s: Scene)
    requires s.tracked != map[]
    ensures forall k :: k in Step(c, s).tracked ==> k in s.tracked && Step(c, s).tracked[k] == s.tracked[k]
  {
    hide Killed;
  }

  /** Closing takes a node that it does not delete out of its owner's hands exactly if the connection
      tracks it, unless its entry goes before its turn: of the nodes of this end itself, all that the peer was
      told of or asked for. */
  lemma {:induction false} LeftInPlaceIff(c: Setting, s: Scene, n: Node)
    requires Orderly(c, s) && ProxiesOnly(c, s.tracked) && n in s.owner && n !in Cleanup(c, s).deleted
    ensures n in Cleanup(c, s).owner <==> !HasTurn(c, s, n)
    ensures n in Cleanup(c, s).owner ==> Cleanup(c, s).owner[n] == s.owner[n]
    ensures NoNamesakes(c, s.tracked) ==> (HasTurn(c, s, n) <==> IsTracked(s.tracked, n))
    decreases |s.tracked|
  {
    if NoNamesakes(c, s.tracked) {
      TurnIfTracked(c, s, n);
    }
    if s.tracked != map[] {
      var s1 := Step(c, s);
      StepShrinks(c, s);
      StepOrderly(c, s);
      StepProxiesOnly(c, s);
      CleanupDeletesProxies(c, s1);
      StepOwner(c, s, n);
      RootIsFree(c, s);
      hide Step, Orderly, Skipped;
      if n == s.tracked[FirstKey(s.tracked)] {
        OwnerOnlyShrinks(c, s1, n);
        FirstIsNotSkipped(c, s);
      } else {
        StepTurn(c, s, n);
        LeftInPlaceIff(c, s1, n);
      }
    }
  }

  lemma TurnIfTracked(c: Setting, s: Scene, n: Node)
    requires Orderly(c, s) && NoNamesakes(c, s.tracked)
    ensures HasTurn(c, s, n) <==> IsTracked(s.tracked, n)
  {
    forall k ensures !Skipped(c, s, k) {
      NothingIsSkipped(c, s, k);
    }
    hide Orderly, Skipped;
  }

  /** So closing does not leave the nodes of this end where they are: one that hangs from the root and is
      tracked hangs nowhere afterwards, and is not deleted. */
  lemma OriginalIsTakenOut(root: Node, n: Node, k: Nid)
    requires root != n
    ensures var c, s := Setting(root, map[]), Scene(map[k := n], map[n := root], multiset{}, false);
      Opening(c, s) && n !in Cleanup(c, s).deleted && n !in Cleanup(c, s).owner
  {
    var c, s := Setting(root, map[]), Scene(map[k := n], map[n := root], multiset{}, false);
    if n in Cleanup(c, s).deleted {
      OnlyProxiesAndTheirs(c, s, n);
      assert false;
    }
    assert IsTracked(s.tracked, n) by { assert s.tracked[k] == n; }
    LeftInPlaceIff(c, s, n);
  }

  lemma {:induction false} OwnerOnlyShrinks(c: Setting, s: Scene, n: Node)
    requires Orderly(c, s) && n !in s.owner
    ensures n !in Cleanup(c, s).owner
    decreases |s.tracked|
  {
    if s.tracked != map[] {
      StepShrinks(c, s);
      StepOrderly(c, s);
      StepOwner(c, s, n);
      hide Step, Orderly;
      OwnerOnlyShrinks(c, Step(c, s), n);
    }
  }

  // ---------- Deleted nodes taken from the table ----------

  /** Those whose turn has come when the entries up to `j` are done. */
  function Done(c: Setting, s: Scene, j: Nid): set<Node>
    requires Orderly(c, s)
  {
    set i | i in s.tracked && i <= j && !Skipped(c, s, i) :: s.tracked[i]
  }

  /** The links that are left then. */
  function Cut(c: Setting, s: Scene, j: Nid): map<Node, Node>
    requires Orderly(c, s)
  {
    s.owner - Done(c, s, j)
  }

  predicate Plain(c: Setting, s: Scene, k: Nid) { k in s.tracked && s.tracked[k] !in c.own && s.tracked[k] != c.root }

  /** The proxy at `j` will take the node at `k` with it before `k` is reached. */
  predicate Doomed(c: Setting, s: Scene, k: Nid, j: Nid)
    requires Orderly(c, s)
  {
    && Plain(c, s, k) && j in s.tracked && s.tracked[j] in c.own && !Skipped(c, s, j)
    && Under(Cut(c, s, j), s.tracked[k], s.tracked[j])
  }

  predicate Fallen(c: Setting, s: Scene, k: Nid) { Plain(c, s, k) && s.tracked[k] in s.deleted }

  ghost predicate WillTouch(c: Setting, s: Scene)
    requires Orderly(c, s)
  {
    s.touched || (exists k :: Fallen(c, s, k)) || (exists k, j :: Doomed(c, s, k, j))
  }

  lemma {:induction false} UnderAlive(s: Scene, o: map<Node, Node>, o': map<Node, Node>, m: Node, p: Node)
    requires Under(o, m, p) && p !in s.deleted
    requires forall n :: n in o ==> (n in s.deleted <==> o[n] in s.deleted)
    requires forall n :: n in o && n !in s.deleted ==> n in o' && o'[n] == o[n]
    ensures Under(o', m, p)
    decreases |o|
  {
    UnderTogether(s, o, m, p);
    if o[m] != p {
      UnderAlive(s, o - {m}, o' - {m}, o[m], p);
    }
  }

  /** The first entry is not a proxy's. */
  predicate OtherIsFirst(c: Setting, s: Scene) { s.tracked != map[] && s.tracked[FirstKey(s.tracked)] !in c.own }

  predicate ProxyIsFirst(c: Setting, s: Scene) { s.tracked != map[] && s.tracked[FirstKey(s.tracked)] in c.own }

  /** Its links are cut for all that comes after, so what proxies doom stays the same. */
  lemma OtherDooms(c: Setting, s: Scene)
    requires Orderly(c, s) && OtherIsFirst(c, s)
    ensures Orderly(c, Step(c, s)) && forall k, j :: Doomed(c, s, k, j) <==> Doomed(c, Step(c, s), k, j)
  {
    StepOrderly(c, s);
    forall k, j ensures Doomed(c, s, k, j) <==> Doomed(c, Step(c, s), k, j) {
      OtherDoomsOne(c, s, k, j);
    }
    hide Doomed, Step, Orderly;
  }

  lemma OtherDoomsOne(c: Setting, s: Scene, k: Nid, j: Nid)
    requires Orderly(c, s) && OtherIsFirst(c, s) && Orderly(c, Step(c, s))
    ensures Doomed(c, s, k, j) <==> Doomed(c, Step(c, s), k, j)
  {
    var f, s1 := FirstKey(s.tracked), Step(c, s);
    OtherTable(c, s);
    FirstIsNotSkipped(c, s);
    hide Under, Orderly, Step, Skipped;
    if j in s.tracked && j != f {
      CutFirst(c, s, j);
      SkippedLater(c, s, j);
      if k == f {
        assert s.tracked[f] in Done(c, s, j);
        NotCut(c, s, f, j);
      }
    }
  }

  lemma OtherTable(c: Setting, s: Scene)
    requires OtherIsFirst(c, s)
    ensures Step(c, s).tracked == s.tracked - {FirstKey(s.tracked)}
    ensures s.tracked[FirstKey(s.tracked)] != c.root ==> Step(c, s).owner == s.owner - {s.tracked[FirstKey(s.tracked)]}
    ensures s.tracked[FirstKey(s.tracked)] == c.root ==> Step(c, s).owner == s.owner
  {
  }

  lemma NotCut(c: Setting, s: Scene, k: Nid, j: Nid)
    requires Orderly(c, s) && k in s.tracked && s.tracked[k] in Done(c, s, j) && j in s.tracked
    ensures !Under(Cut(c, s, j), s.tracked[k], s.tracked[j])
  {
    hide Done, Orderly;
  }

  lemma OtherFalls(c: Setting, s: Scene)
    requires Orderly(c, s) && OtherIsFirst(c, s)
    ensures var f, s1 := FirstKey(s.tracked), Step(c, s);
      && (s.tracked[f] != c.root ==> (s1.touched <==> s.touched || Fallen(c, s, f)))
      && (s.tracked[f] == c.root ==> s1.touched == s.touched && !Fallen(c, s, f))
      && (forall k :: k != f ==> (Fallen(c, s, k) <==> Fallen(c, s1, k))) && !Fallen(c, s1, f)
  {
    hide Orderly;
  }

  /** Any entry but a proxy's changes nothing of what will be touched. */
  lemma OtherFirst(c: Setting, s: Scene)
    requires Orderly(c, s) && OtherIsFirst(c, s)
    ensures Orderly(c, Step(c, s)) && (WillTouch(c, Step(c, s)) <==> WillTouch(c, s))
  {
    hide Doomed, Fallen, Orderly, Step;
    OtherDooms(c, s);
    OtherFalls(c, s);
  }

  lemma CutFirst(c: Setting, s: Scene, j: Nid)
    requires Orderly(c, s) && OtherIsFirst(c, s) && j in s.tracked && j != FirstKey(s.tracked)
    requires Orderly(c, Step(c, s))
    ensures Cut(c, Step(c, s), j) == Cut(c, s, j)
  {
    var f, s1 := FirstKey(s.tracked), Step(c, s);
    OtherTable(c, s);
    FirstIsNotSkipped(c, s);
    RootIsFree(c, s);
    hide Orderly, Step, Skipped;
    forall i | i in s1.tracked ensures Skipped(c, s1, i) <==> Skipped(c, s, i) {
      SkippedLater(c, s, i);
    }
    forall m | m in s.owner
      ensures m in Done(c, s, j) <==> m in Done(c, s1, j) || m == s.tracked[f]
    {
      if i :| i in s.tracked && i <= j && !Skipped(c, s, i) && s.tracked[i] == m {
        assert i != f ==> i in s1.tracked && s1.tracked[i] == m;
      }
    }
    hide Done;
  }

  lemma RootIsFree(c: Setting, s: Scene)
    requires Orderly(c, s)
    ensures c.root !in s.owner
  {
  }

  /** A deletion removes the entries of proxies only. */
  lemma PlainStays(c: Setting, s: Scene, n: Node)
    requires ProxiesOnly(c, s.tracked)
    ensures forall k :: Plain(c, s, k) <==> Plain(c, Deleting(c, s, n), k)
  {
    hide Killed;
  }

  lemma ProxyFirstStep(c: Setting, s: Scene)
    requires Orderly(c, s) && ProxiesOnly(c, s.tracked) && ProxyIsFirst(c, s)
    ensures var f, s1 := FirstKey(s.tracked), Step(c, s); var p := s.tracked[f];
      && Orderly(c, s1) && ProxiesOnly(c, s1.tracked)
      && s1.owner == s.owner - {p} && s1.touched == s.touched && p in s1.deleted
      && (forall n :: n in s1.deleted <==> n in s.deleted || n == p || (n in s1.owner && Under(s1.owner, n, p)))
      && (forall k :: Plain(c, s, k) <==> Plain(c, s1, k))
      && (forall k :: k in s1.tracked ==> k in s.tracked && s1.tracked[k] == s.tracked[k])
  {
    var f := FirstKey(s.tracked);
    var p := s.tracked[f];
    var d := s.(owner := s.owner - {p}, touched := s.touched || p in s.deleted);
    StepOrderly(c, s);
    DeletedStill(s.deleted, Killed(d.owner, p));
    PlainStays(c, d, p);
    assert forall n :: n in Killed(d.owner, p) <==> n == p || (n in d.owner && Under(d.owner, n, p));
    assert Step(c, s) == Deleting(c, d, p);
    assert Deleting(c, d, p).deleted == s.deleted + multiset(Killed(d.owner, p));
    hide Under, Together, OnceEach, Killed, Step;
  }

  /** What the proxy being deleted takes with it is what it dooms. */
  lemma DoomedByFirst(c: Setting, s: Scene, k: Nid)
    requires Orderly(c, s) && ProxyIsFirst(c, s) && Plain(c, s, k)
    ensures Doomed(c, s, k, FirstKey(s.tracked)) <==>
      Under(s.owner - {s.tracked[FirstKey(s.tracked)]}, s.tracked[k], s.tracked[FirstKey(s.tracked)])
  {
    var f := FirstKey(s.tracked);
    FirstIsNotSkipped(c, s);
    hide Under, Orderly, Cut, Skipped;
    assert Done(c, s, f) == {s.tracked[f]} by {
      assert s.tracked[f] in Done(c, s, f);
    }
    CutIs(c, s, f);
  }

  lemma CutIs(c: Setting, s: Scene, j: Nid)
    requires Orderly(c, s)
    ensures Cut(c, s, j) == s.owner - Done(c, s, j)
  {
    hide Orderly, Done;
  }

  lemma InCut(c: Setting, s: Scene, j: Nid, n: Node)
    requires Orderly(c, s)
    ensures n in Cut(c, s, j) <==>
      n in s.owner && forall i :: i in s.tracked && i <= j && !Skipped(c, s, i) ==> s.tracked[i] != n
    ensures n in Cut(c, s, j) ==> Cut(c, s, j)[n] == s.owner[n]
  {
    hide Orderly, Skipped;
  }

  /** What is cut later is cut now, or gone. */
  lemma CutLater(c: Setting, s: Scene, j: Nid, n: Node)
    requires Orderly(c, s) && ProxiesOnly(c, s.tracked) && ProxyIsFirst(c, s) && Orderly(c, Step(c, s))
    requires j in s.tracked
    ensures n in Cut(c, s, j) ==> n in Cut(c, Step(c, s), j) && Cut(c, Step(c, s), j)[n] == Cut(c, s, j)[n]
    ensures n in Cut(c, Step(c, s), j) && n !in Step(c, s).deleted ==>
      n in Cut(c, s, j) && Cut(c, s, j)[n] == Cut(c, Step(c, s), j)[n]
  {
    var f, s1 := FirstKey(s.tracked), Step(c, s);
    ProxyFirstStep(c, s);
    FirstIsNotSkipped(c, s);
    InCut(c, s, j, n);
    InCut(c, s1, j, n);
    hide Step, Orderly, Skipped, Cut;
    forall i | i in s1.tracked ensures Skipped(c, s1, i) <==> Skipped(c, s, i) {
      SkippedLater(c, s, i);
    }
    if n !in s1.deleted {
      forall i | i in s.tracked && i !in s1.tracked && i != f && s.tracked[i] == n ensures Skipped(c, s, i) {
        assert s.tracked[i] in c.own;
        GoneIsSkipped(c, s, i);
      }
    }
  }

  lemma DoomedForward(c: Setting, s: Scene, k: Nid, j: Nid)
    requires Orderly(c, s) && ProxiesOnly(c, s.tracked) && ProxyIsFirst(c, s) && Orderly(c, Step(c, s))
    requires Doomed(c, s, k, j) && j != FirstKey(s.tracked)
    ensures Fallen(c, Step(c, s), k) || Doomed(c, Step(c, s), k, j)
  {
    var s1 := Step(c, s);
    ProxyFirstStep(c, s);
    var o := Cut(c, s, j);
    forall n | n in o ensures n in Cut(c, s1, j) && Cut(c, s1, j)[n] == o[n] {
      CutLater(c, s, j, n);
    }
    if j in s1.tracked {
      SkippedLater(c, s, j);
      UnderMore(o, Cut(c, s1, j), s.tracked[k], s.tracked[j]);
      hide Step, Orderly, Skipped, Cut, Under;
    } else {
      if s.tracked[j] !in s1.deleted {
        GoneIsSkipped(c, s, j);
        assert false;
      }
      CutTogether(c, s1, j, o);
      UnderTogether(s1, o, s.tracked[k], s.tracked[j]);
      hide Step, Orderly, Skipped, Cut, Under;
    }
  }

  lemma CutTogether(c: Setting, s: Scene, j: Nid, o: map<Node, Node>)
    requires Orderly(c, s) && forall n :: n in o ==> n in Cut(c, s, j) && Cut(c, s, j)[n] == o[n]
    ensures forall n :: n in o ==> (n in s.deleted <==> o[n] in s.deleted)
  {
    hide Skipped, OnceEach, OwnNids, Done;
  }

  lemma DoomedBackward(c: Setting, s: Scene, k: Nid, j: Nid)
    requires Orderly(c, s) && ProxiesOnly(c, s.tracked) && ProxyIsFirst(c, s) && Orderly(c, Step(c, s))
    requires Doomed(c, Step(c, s), k, j)
    ensures Doomed(c, s, k, j)
  {
    var s1 := Step(c, s);
    ProxyFirstStep(c, s);
    SkippedLater(c, s, j);
    ProxyAlive(c, s1, j);
    var o, o' := Cut(c, s1, j), Cut(c, s, j);
    CutTogether(c, s1, j, o);
    hide Step, Orderly, Skipped, Cut, Under;
    forall n | n in o && n !in s1.deleted ensures n in o' && o'[n] == o[n] {
      CutLater(c, s, j, n);
    }
    UnderAlive(s1, o, o', s1.tracked[k], s1.tracked[j]);
  }

  lemma ProxyAlive(c: Setting, s: Scene, j: Nid)
    requires Orderly(c, s) && j in s.tracked && s.tracked[j] in c.own
    ensures s.tracked[j] !in s.deleted
  {
    hide Together, OnceEach, OwnNids;
  }

  lemma ProxyFirst(c: Setting, s: Scene)
    requires Orderly(c, s) && ProxiesOnly(c, s.tracked) && ProxyIsFirst(c, s)
    ensures Orderly(c, Step(c, s)) && (WillTouch(c, Step(c, s)) <==> WillTouch(c, s))
  {
    var f, s1 := FirstKey(s.tracked), Step(c, s);
    ProxyFirstStep(c, s);
    hide Step, Orderly, Under, Cut, Skipped;
    forall k, j | Doomed(c, s, k, j) ensures WillTouch(c, s1) {
      if j == f {
        DoomedByFirst(c, s, k);
        assert Fallen(c, s1, k) by { KilledFalls(c, s, k); }
      } else {
        DoomedForward(c, s, k, j);
      }
    }
    forall k, j | Doomed(c, s1, k, j) ensures WillTouch(c, s) {
      DoomedBackward(c, s, k, j);
    }
    forall k | Fallen(c, s, k) ensures WillTouch(c, s1) {
      assert Fallen(c, s1, k);
    }
    forall k | Fallen(c, s1, k) ensures WillTouch(c, s) {
      if s.tracked[k] in s.deleted {
        assert Fallen(c, s, k);
      } else {
        DoomedByFirst(c, s, k);
        assert Doomed(c, s, k, f);
      }
    }
    hide Doomed, Fallen;
  }

  lemma KilledFalls(c: Setting, s: Scene, k: Nid)
    requires Orderly(c, s) && ProxiesOnly(c, s.tracked) && ProxyIsFirst(c, s)
    requires Doomed(c, s, k, FirstKey(s.tracked))
    ensures Fallen(c, Step(c, s), k)
  {
    ProxyFirstStep(c, s);
    DoomedByFirst(c, s, k);
    hide Step, Orderly, Cut;
  }

  lemma StepProxiesOnly(c: Setting, s: Scene)
    requires s.tracked != map[] && ProxiesOnly(c, s.tracked)
    ensures ProxiesOnly(c, Step(c, s).tracked)
  {
    StepTable(c, s);
    hide Step;
  }

  /** The loop uses a node that was deleted exactly if one is in the table, or some proxy whose turn comes
      owns a tracked node of this end and comes before it, with nothing in between that comes before the proxy. */
  lemma {:induction false} TouchesDeletedIff(c: Setting, s: Scene)
    requires Orderly(c, s) && ProxiesOnly(c, s.tracked)
    ensures Cleanup(c, s).touched <==> WillTouch(c, s)
    decreases |s.tracked|
  {
    if s.tracked != map[] {
      StepShrinks(c, s);
      StepProxiesOnly(c, s);
      TouchesDeletedIff(c, Step(c, s));
      if s.tracked[FirstKey(s.tracked)] in c.own {
        ProxyFirst(c, s);
      } else {
        OtherFirst(c, s);
      }
      hide Step, Orderly, WillTouch;
    }
  }

  /** From the state in which the connection is closed: nothing has been deleted then. */
  lemma ClosingIsSafeIff(c: Setting, s: Scene)
    requires Opening(c, s) && ProxiesOnly(c, s.tracked)
    ensures Orderly(c, s) && (!Cleanup(c, s).touched <==> forall k, j :: !Doomed(c, s, k, j))
  {
    OpeningOrderly(c, s);
    TouchesDeletedIff(c, s);
    assert forall k :: !Fallen(c, s, k);
    hide Doomed, Fallen, Orderly;
  }

  /** A node that the application hung under a proxy, and that the proxy owns, goes with it, and
      is used afterwards: its nid was drawn later than the proxy's. */
  lemma OwnedByProxyIsTouched(root: Node, proxy: Node, n: Node, k: Nid, j: Nid)
    requires root != proxy && root != n && proxy != n && 0 < j < k
    ensures var c, s := Setting(root, map[proxy := j]), Scene(map[0 := root, j := proxy, k := n], map[n := proxy],
      multiset{}, false);
      Opening(c, s) && Orderly(c, s) && Cleanup(c, s).touched
  {
    var c, s := Setting(root, map[proxy := j]), Scene(map[0 := root, j := proxy, k := n], map[n := proxy], multiset{},
      false);
    ClosingIsSafeIff(c, s);
    assert NoNamesakes(c, s.tracked);
    NothingIsSkipped(c, s, j);
    InCut(c, s, j, n);
    assert n in Cut(c, s, j);
    assert Doomed(c, s, k, j);
  }

  function SettingOf(x: Side): Setting { Setting(x.root, map n | n in x.own :: x.own[n].nid) }

  /** The tracking steps of a connection make the table what the loop needs, in sound runs. */
  lemma TrackingGivesOwnNids(s: State)
    requires MirrorRuns.Reachable(s)
    ensures var c := SettingOf(s.a); OwnNids(c, s.a.tracked) && NoNamesakes(c, s.a.tracked) && c.root !in c.own
  {
    MirrorRuns.ReachableInv(s);
    assert TrackedOk(s.a, s.next);
    forall k | k in s.a.tracked && s.a.tracked[k] in s.a.own ensures s.a.own[s.a.tracked[k]].nid == k {
      MirrorRuns.ProxyKnowsNid(s.a, s.b, s.ba, k, s.next);
    }
    forall n | n in s.a.own ensures s.a.own[n].nid in s.a.tracked && s.a.tracked[s.a.own[n].nid] == n {
      MirrorRuns.ProxyStandsForSomething(s, n);
    }
    hide Inv;
  }

  const TwoProxies := Setting(0, map[1 := 1, 2 := 2, 3 := 2])
  const Overwritten := Scene(map[0 := 0, 1 := 1, 2 := 3], map[1 := 0, 2 := 1], multiset{}, false)

  /** Two callers got the same child: the first one's proxy hangs, and is owned, under its parent's, the
      second one's is in the table in its place. Closing then deletes the first with its parent, and the
      second, whose entry goes with the first, not at all. */
  lemma OverwrittenIsMissed() returns (s: State)
    ensures MirrorWaits.EverReachable(s) && SettingOf(s.a) == TwoProxies && s.a.tracked == Overwritten.tracked
    ensures s.a.edges == map[(0, MirrorScenes.One) := 1, MirrorScenes.Place := 2]
    ensures Opening(TwoProxies, Overwritten) && Orderly(TwoProxies, Overwritten)
    ensures 2 in Overwritten.tracked && Overwritten.tracked[2] !in Cleanup(TwoProxies, Overwritten).deleted
  {
    hide *;
    s := MirrorScenes.SecondOverwrites();
    OverwrittenSide();
    ThirdIsMissed();
  }

  lemma OverwrittenSide()
    ensures var x := MirrorScenes.SecondOver;
      && SettingOf(x) == TwoProxies && x.tracked == Overwritten.tracked
      && x.edges == map[(0, MirrorScenes.One) := 1, MirrorScenes.Place := 2]
  {
    var x := MirrorScenes.SecondOver;
    assert SettingOf(x).own == TwoProxies.own;
  }

  lemma ThirdIsMissed()
    ensures Opening(TwoProxies, Overwritten) && Orderly(TwoProxies, Overwritten)
    ensures 2 in Overwritten.tracked && Overwritten.tracked[2] !in Cleanup(TwoProxies, Overwritten).deleted
  {
    hide Under, Step, Below, Orderly, Cleanup, NamesakeGone;
    var s1, s2 := TwoSteps();
    BelowTwo(s1, s2);
    TwoIsNamesake(s2);
    OrderlyOpening();
    MissedIff(TwoProxies, Overwritten, 2);
  }

  lemma OrderlyOpening()
    ensures Opening(TwoProxies, Overwritten)
  {
  }

  lemma BelowTwo(s1: Scene, s2: Scene)
    requires Orderly(TwoProxies, Overwritten) && FirstKey(Overwritten.tracked) == 0
    requires s1 == Step(TwoProxies, Overwritten)
    requires Orderly(TwoProxies, s1) && s1.tracked != map[] && FirstKey(s1.tracked) == 1 && s2 == Step(TwoProxies, s1)
    requires Orderly(TwoProxies, s2) && s2.tracked == map[]
    ensures Below(TwoProxies, Overwritten, 2) == s2
  {
    hide Step, Orderly;
    assert Below(TwoProxies, s2, 2) == s2;
    assert Below(TwoProxies, s1, 2) == s2;
  }

  lemma TwoIsNamesake(s2: Scene)
    requires 2 in s2.deleted
    ensures NamesakeGone(TwoProxies, Overwritten.deleted, s2.deleted, 3, 2)
  {
    assert 2 in TwoProxies.own && TwoProxies.own[2] == 2;
  }

  lemma TwoSteps() returns (s1: Scene, s2: Scene)
    ensures Orderly(TwoProxies, Overwritten) && FirstKey(Overwritten.tracked) == 0
    ensures s1 == Step(TwoProxies, Overwritten)
    ensures Orderly(TwoProxies, s1) && s1.tracked != map[] && FirstKey(s1.tracked) == 1 && s2 == Step(TwoProxies, s1)
    ensures Orderly(TwoProxies, s2) && 2 in s2.deleted && s2.tracked == map[]
  {
    RootStep();
    s1 := Overwritten.(tracked := map[1 := 1, 2 := 3]);
    assert 1 in s1.tracked && FirstKey(s1.tracked) != 2;
    s2 := Step(TwoProxies, s1);
    hide Step, Under;
    StepOrderly(TwoProxies, Overwritten);
    StepOrderly(TwoProxies, s1);
    hide Orderly;
    OneTakesTwo(s1);
  }

  lemma RootStep()
    ensures Orderly(TwoProxies, Overwritten) && FirstKey(Overwritten.tracked) == 0
    ensures Step(TwoProxies, Overwritten) == Overwritten.(tracked := map[1 := 1, 2 := 3])
  {
    var s := Overwritten;
    assert 0 in s.tracked;
    assert s.tracked - {0} == map[1 := 1, 2 := 3];
    hide Under, Killed;
  }

  lemma OneTakesTwo(s: Scene)
    requires s == Overwritten.(tracked := map[1 := 1, 2 := 3]) && s.tracked != map[] && FirstKey(s.tracked) == 1
    ensures 2 in Step(TwoProxies, s).deleted && Step(TwoProxies, s).tracked == map[]
  {
    var o: map<Node, Node> := map[2 := 1];
    assert s.owner - {1} == o;
    assert Under(o, 2, 1);
    var killed := Killed(o, 1);
    assert 1 in killed && 2 in killed;
    DeletedStill(multiset{}, killed);
    assert 1 in NidsOf(TwoProxies, killed) && 2 in NidsOf(TwoProxies, killed) by {
      assert TwoProxies.own[1] == 1 && TwoProxies.own[2] == 2;
    }
    assert s.tracked - NidsOf(TwoProxies, killed) == map[];
  }

  // ---------- Destructors ----------

  function Children(owner: map<Node, Node>, n: Node): set<Node> { set m | m in owner && owner[m] == n }

  lemma {:induction false} UnderThen(o: map<Node, Node>, links: map<Node, Node>, m: Node, c: Node, n: Node)
    requires Under(o, m, c) && c !in o && c in links && links[c] == n
    requires forall x :: x in o ==> x in links && links[x] == o[x]
    ensures Under(links, m, n)
    decreases |o|
  {
    if o[m] == c {
      assert Under(links - {m}, c, n);
    } else {
      UnderThen(o - {m}, links - {m}, o[m], c, n);
    }
  }

  lemma {:induction false} UnderSome(links: map<Node, Node>, m: Node, n: Node) returns (c: Node)
    requires Under(links, m, n)
    ensures c in Children(links, n) && m in Killed(links - {c}, c)
    decreases |links|
  {
    if links[m] == n {
      c := m;
    } else {
      c := UnderSome(links - {m}, links[m], n);
      assert (links - {m}) - {c} == (links - {c}) - {m};
    }
  }

  /** What goes with `n` is what goes with each node that it owns. */
  ghost function WithAll(links: map<Node, Node>, done: set<Node>): set<Node> {
    set c, m | c in done && m in Killed(links - {c}, c) :: m
  }

  lemma KilledIsWithChildren(links: map<Node, Node>, n: Node)
    ensures Killed(links, n) == {n} + WithAll(links, Children(links, n))
  {
    forall m | m in Killed(links, n) && m != n ensures m in WithAll(links, Children(links, n)) {
      var c := UnderSome(links, m, n);
    }
    forall m | m in WithAll(links, Children(links, n)) ensures m in Killed(links, n) {
      var c :| c in Children(links, n) && m in Killed(links - {c}, c);
      KilledBelow(links, n, c, m);
    }
    assert n in Killed(links, n);
    hide Killed, WithAll, Children;
  }

  lemma KilledBelow(links: map<Node, Node>, n: Node, c: Node, m: Node)
    requires c in Children(links, n) && m in Killed(links - {c}, c)
    ensures m in Killed(links, n)
  {
    if m != c {
      UnderThen(links - {c}, links, m, c, n);
    }
  }

  lemma KilledUp(links: map<Node, Node>, m: Node, c: Node)
    requires m in Killed(links - {c}, c) && m != c
    ensures m in links && links[m] in Killed((links - {m}) - {c}, c)
  {
    assert (links - {m}) - {c} == (links - {c}) - {m};
    assert links[m] == c || Under((links - {c}) - {m}, links[m], c);
  }

  lemma NotBelowSibling(links: map<Node, Node>, n: Node, c: Node, d: Node)
    requires n !in links && c in Children(links, n) && d in Children(links, n) && c in Killed(links - {d}, d)
    ensures c == d
  {
    if c != d {
      assert !Under((links - {d}) - {c}, n, d);
    }
  }

  /** A node has one owner, so it goes with one of them only. */
  lemma {:induction false} OneWayUp(links: map<Node, Node>, n: Node, c: Node, d: Node, m: Node)
    requires n !in links && c in Children(links, n) && d in Children(links, n)
    requires m in Killed(links - {c}, c) && m in Killed(links - {d}, d)
    ensures c == d
    decreases |links|
  {
    hide Killed, Under;
    if m == c {
      NotBelowSibling(links, n, c, d);
    } else if m == d {
      NotBelowSibling(links, n, d, c);
    } else {
      KilledUp(links, m, c);
      KilledUp(links, m, d);
      OneWayUp(links - {m}, n, c, d, links[m]);
    }
  }

  lemma WithOneMore(links: map<Node, Node>, n: Node, done: set<Node>, c: Node)
    requires n !in links && done <= Children(links, n) && c in Children(links, n) && c !in done
    ensures WithAll(links, done + {c}) == WithAll(links, done) + Killed(links - {c}, c)
    ensures WithAll(links, done) !! Killed(links - {c}, c) && n !in Killed(links - {c}, c)
  {
    assert n !in Killed(links - {c}, c);
    hide Under, Killed;
    forall m | m in WithAll(links, done) ensures m !in Killed(links - {c}, c) {
      var d :| d in done && m in Killed(links - {d}, d);
      if m in Killed(links - {c}, c) {
        OneWayUp(links, n, c, d, m);
      }
    }
  }

  lemma NidsTogether(c: Setting, a: set<Node>, b: set<Node>)
    ensures NidsOf(c, a + b) == NidsOf(c, a) + NidsOf(c, b)
  {
  }

  lemma CountTogether(a: set<Node>, b: set<Node>)
    requires a !! b
    ensures multiset(a + b) == multiset(a) + multiset(b)
  {
  }

  /** The node's link up has been followed: every link that is left, and no other, is below. */
  ghost predicate LinksBelow(owner: map<Node, Node>, links: map<Node, Node>, n: Node) {
    && n !in links
    && (forall x :: x in links ==> x in owner && owner[x] == links[x])
    && (forall x :: x in owner && x !in links ==> owner[x] !in links && owner[x] != n)
  }

  lemma LinksBelowChild(owner: map<Node, Node>, links: map<Node, Node>, n: Node, c: Node)
    requires LinksBelow(owner, links, n) && c in Children(links, n)
    ensures LinksBelow(owner, links - {c}, c) && Children(links, n) == Children(owner, n) && n !in links
  {
  }

  // ---------- The loop as it is written ----------

  /** From one table and count to another, exactly these nodes were destroyed, once each. */
  predicate Gone(c: Setting, t: map<Nid, Node>, d: multiset<Node>, t': map<Nid, Node>, d': multiset<Node>,
      nodes: set<Node>) {
    t' == t - NidsOf(c, nodes) && d' == d + multiset(nodes)
  }

  lemma GoneMore(
    c: Setting, t: map<Nid, Node>, d: multiset<Node>, t1: map<Nid, Node>, d1: multiset<Node>, a: set<Node>,
    t2: map<Nid, Node>, d2: multiset<Node>, b: set<Node>)
    requires Gone(c, t, d, t1, d1, a) && Gone(c, t1, d1, t2, d2, b) && a !! b
    ensures Gone(c, t, d, t2, d2, a + b)
  {
    NidsTogether(c, a, b);
    CountTogether(a, b);
    assert (t - NidsOf(c, a)) - NidsOf(c, b) == t - (NidsOf(c, a) + NidsOf(c, b));
    hide NidsOf;
  }

  lemma GoneSelf(c: Setting, t: map<Nid, Node>, d: multiset<Node>, n: Node)
    ensures Gone(c, t, d, if n in c.own then t - {c.own[n]} else t, d + multiset{n}, {n})
  {
  }

  lemma ChildrenBelow(owner: map<Node, Node>, links: map<Node, Node>, n: Node)
    requires LinksBelow(owner, links, n)
    ensures Children(links, n) == Children(owner, n)
    ensures {n} + WithAll(links, Children(links, n) - Children(owner, n)) == {n}
  {
    assert Children(links, n) - Children(owner, n) == {};
  }

  lemma NextChild(links: map<Node, Node>, owner: map<Node, Node>, n: Node, done: set<Node>, c: Node)
    requires LinksBelow(owner, links, n) && done <= Children(links, n) && c in Children(links, n) && c !in done
    ensures LinksBelow(owner, links - {c}, c) && |links - {c}| < |links|
    ensures var below, next := {n} + WithAll(links, done), Killed(links - {c}, c);
      below !! next && below + next == {n} + WithAll(links, done + {c})
  {
    hide *;
    LinksBelowChild(owner, links, n, c);
    WithOneMore(links, n, done, c);
    FewerLinks(links, n, c);
    OneMore(n, WithAll(links, done), Killed(links - {c}, c), WithAll(links, done + {c}));
  }

  lemma OneMore(n: Node, w: set<Node>, k: set<Node>, more: set<Node>)
    requires more == w + k && w !! k && n !in k
    ensures {n} + w !! k && {n} + w + k == {n} + more
  {
  }

  lemma FewerLinks(links: map<Node, Node>, n: Node, c: Node)
    requires c in Children(links, n)
    ensures |links - {c}| < |links|
  {
    assert (links - {c}).Keys == links.Keys - {c};
  }

  class Closing {
    const setting: Setting
    var tracked: map<Nid, Node>
    var owner: map<Node, Node>
    ghost var deleted: multiset<Node>
    ghost var touched: bool

    ghost function View(): Scene reads this { Scene(tracked, owner, deleted, touched) }

    constructor (setting: Setting, tracked: map<Nid, Node>, owner: map<Node, Node>)
      ensures this.setting == setting && View() == Scene(tracked, owner, multiset{}, false)
    {
      this.setting, this.tracked, this.owner := setting, tracked, owner;
      deleted, touched := multiset{}, false;
    }

    /** Asking a node for its owner, and taking it from there. */
    method Detach(n: Node)
      modifies this`owner, this`touched
      ensures owner == old(owner) - {n} && touched == (old(touched) || n in deleted)
    {
      touched := touched || n in deleted;
      if n in owner {
        owner := owner - {n};
      }
    }

    /** A destructor: a proxy removes its nid, then the nodes owned are destroyed, each by its own
        destructor. `links` are those that are still to be followed. */
    method Destroy(n: Node, ghost links: map<Node, Node>)
      requires LinksBelow(owner, links, n)
      modifies this`tracked, this`deleted
      ensures Gone(setting, old(tracked), old(deleted), tracked, deleted, Killed(links, n))
      decreases |links|
    {
      hide *;
      GoneSelf(setting, tracked, deleted, n);
      deleted := deleted + multiset{n};
      if n in setting.own {
        RemoveClientNode(setting.own[n]);
      }
      ChildrenBelow(owner, links, n);
      var rest := Children(owner, n);
      ghost var below := {n};
      while rest != {}
        invariant rest <= Children(links, n)
        invariant below == {n} + WithAll(links, Children(links, n) - rest)
        invariant Gone(setting, old(tracked), old(deleted), tracked, deleted, below)
        decreases |rest|
      {
        var c :| c in rest;
        ghost var done, next, t, d := Children(links, n) - rest, Killed(links - {c}, c), tracked, deleted;
        NextChild(links, owner, n, done, c);
        Destroy(c, links - {c});
        GoneMore(setting, old(tracked), old(deleted), t, d, below, tracked, deleted, next);
        below := below + next;
        rest := rest - {c};
        assert Children(links, n) - rest == done + {c};
      }
      assert Children(links, n) - rest == Children(links, n);
      KilledIsWithChildren(links, n);
    }

    /** `delete` on a node that was detached. */
    method Delete(n: Node)
      requires n !in owner
      modifies this`tracked, this`deleted
      ensures View() == Deleting(setting, old(View()), n)
    {
      hide Killed, NidsOf;
      Destroy(n, owner);
    }

    method RemoveClientNode(k: Nid)
      modifies this`tracked
      ensures tracked == old(tracked) - {k}
    {
      tracked := tracked - {k};
    }

    method CleanupChildren()
      requires Orderly(setting, View())
      modifies this
      ensures View() == Cleanup(setting, old(View()))
      ensures tracked == map[]
    {
      hide Orderly, Deleting, Under;
      while tracked != map[]
        invariant Orderly(setting, View())
        invariant Cleanup(setting, View()) == Cleanup(setting, old(View()))
        decreases |tracked|
      {
        StepShrinks(setting, View());
        var first := FirstKey(tracked);
        var n := tracked[first];
        if n == setting.root {
          RemoveClientNode(first);
        } else {
          Detach(n);
          if n in setting.own {
            Delete(n);
          } else {
            RemoveClientNode(first);
          }
        }
      }
    }
  }
}
