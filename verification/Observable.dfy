/** The link between an observable and its one listener: each points to the other, and every call
    that changes one end changes the other, each under the lock of the object it changes. */
module Observable {

  // ---------- Who listens to whom ----------

  /** Making `l` the listener of `o`: whatever either was linked to is let go. */
  function Attach<O(==), L(==)>(links: map<O, L>, o: O, l: L): map<O, L> {
    (map p | p in links && p != o && links[p] != l :: links[p])[o := l]
  }

  function Without<O(==), L>(links: map<O, L>, o: O): map<O, L> { links - {o} }

  function WithoutListener<O(==), L(==)>(links: map<O, L>, l: L): map<O, L> {
    map p | p in links && links[p] != l :: links[p]
  }

  predicate OneToOne<O(==), L(==)>(links: map<O, L>) {
    forall p, q :: p in links && q in links && links[p] == links[q] ==> p == q
  }

  datatype Op<O, L> =
    | Listen(o: O, l: L)          // set_listener(l)
    | ListenNone(o: O)            // set_listener(nullptr)
    | DestroyObservable(o: O)
    | DestroyListener(l: L)

  function Apply<O(==), L(==)>(links: map<O, L>, op: Op<O, L>): map<O, L> {
    match op
    case Listen(o, l) => Attach(links, o, l)
    case ListenNone(o) => Without(links, o)
    case DestroyObservable(o) => Without(links, o)
    case DestroyListener(l) => WithoutListener(links, l)
  }

  function ApplyAll<O(==), L(==)>(links: map<O, L>, ops: seq<Op<O, L>>): map<O, L>
    decreases |ops|
  {
    if ops == [] then links else ApplyAll(Apply(links, ops[0]), ops[1..])
  }

  /** After any calls on any objects no listener has two observables. */
  lemma {:induction false} StaysOneToOne<O, L>(links: map<O, L>, ops: seq<Op<O, L>>)
    requires OneToOne(links)
    ensures OneToOne(ApplyAll(links, ops))
    decreases |ops|
  {
    if ops != [] {
      StaysOneToOne(Apply(links, ops[0]), ops[1..]);
    }
  }

  /** The last call that concerns an observable decides: nothing but a call for it, for its
      listener, or for the destruction of either, ends the link. */
  predicate Concerns<O(==), L(==)>(op: Op<O, L>, o: O, l: L) {
    match op
    case Listen(p, k) => p == o || k == l
    case ListenNone(p) => p == o
    case DestroyObservable(p) => p == o
    case DestroyListener(k) => k == l
  }

  lemma {:induction false} LinkLasts<O, L>(links: map<O, L>, o: O, l: L, ops: seq<Op<O, L>>)
    requires OneToOne(links) && forall op :: op in ops ==> !Concerns(op, o, l)
    ensures var after := ApplyAll(Attach(links, o, l), ops); o in after && after[o] == l
    ensures var after := ApplyAll(Attach(links, o, l), ops); forall p :: p in after && after[p] == l ==> p == o
  {
    LinkStays(Attach(links, o, l), o, l, ops);
    StaysOneToOne(Attach(links, o, l), ops);
  }

  lemma {:induction false} LinkStays<O, L>(links: map<O, L>, o: O, l: L, ops: seq<Op<O, L>>)
    requires o in links && links[o] == l && forall op :: op in ops ==> !Concerns(op, o, l)
    ensures o in ApplyAll(links, ops) && ApplyAll(links, ops)[o] == l
    decreases |ops|
  {
    if ops != [] {
      assert !Concerns(ops[0], o, l);
      LinkStays(Apply(links, ops[0]), o, l, ops[1..]);
    }
  }

  /** Setting the listener that is already there changes nothing. */
  lemma SameListenerAgain<O, L>(links: map<O, L>, o: O)
    requires OneToOne(links) && o in links
    ensures Attach(links, o, links[o]) == links
  {
  }

  // ---------- The objects ----------

  class OneToOneObservable {
    var l: Listener?
    var locked: bool  // its mutex, which the thread that holds it must not take again

    constructor ()
      ensures l == null && !locked
    {
      l, locked := null, false;
    }

    method Lock()
      requires !locked
      modifies this`locked
      ensures locked
    {
      locked := true;
    }

    method Unlock()
      requires locked
      modifies this`locked
      ensures !locked
    {
      locked := false;
    }

    /** The listener is changed by the holder of the lock only. */
    method Put(l: Listener?)
      requires locked
      modifies this`l
      ensures this.l == l
    {
      this.l := l;
    }

    method SetListener(l: Listener?, ghost os: set<OneToOneObservable>, ghost ls: set<Listener>)
      requires this in os && (l != null ==> l in ls) && Matching(os, ls) && Unlocked(os, ls)
      modifies os, ls
      ensures Matching(os, ls) && Unlocked(os, ls)
      ensures Links(os) == if l == null then Without(old(Links(os)), this) else Attach(old(Links(os)), this, l)
    {
      ghost var was := Links(os);
      Lock();
      if this.l != null {
        this.l.RemoveObservable(this);
      }
      Put(l);
      if l != null {
        l.SetObservable(this);
      }
      Unlock();
      assert forall o :: o in os && o != this ==> o.l == if l != null && old(o.l) == l then null else old(o.l);
      assert forall k :: k in ls && k != l ==> k.obs == if old(k.obs) == this then null else old(k.obs);
      assert Matching(os, ls) by {
        hide Links, Unlocked;
      }
      hide Matching, Unlocked;
      assert forall o :: o in os && o != this ==> o.l == Kept(was, o, l);
      LinksAre(os, was, this, l);
      hide Links, Attach, Without, Kept;
    }

    /** The listener that lets go calls it, under its own lock. */
    method RemoveListener(ghost caller: Listener)
      requires !locked && caller.locked
      modifies this
      ensures l == null && !locked
    {
      Lock();
      Put(null);
      Unlock();
    }

    method Destroy(ghost os: set<OneToOneObservable>, ghost ls: set<Listener>)
      requires this in os && Matching(os, ls) && Unlocked(os, ls)
      modifies os, ls
      ensures Matching(os - {this}, ls) && Unlocked(os - {this}, ls)
      ensures Links(os - {this}) == Without(old(Links(os)), this)
    {
      Lock();
      if l != null {
        l.RemoveObservable(this);
      }
      Unlock();
    }
  }

  class Listener {
    var obs: OneToOneObservable?
    var locked: bool

    constructor ()
      ensures obs == null && !locked
    {
      obs, locked := null, false;
    }

    method Lock()
      requires !locked
      modifies this`locked
      ensures locked
    {
      locked := true;
    }

    method Unlock()
      requires locked
      modifies this`locked
      ensures !locked
    {
      locked := false;
    }

    /** The observable is changed by the holder of the lock only. */
    method Put(o: OneToOneObservable?)
      requires locked
      modifies this`obs
      ensures obs == o
    {
      obs := o;
    }

    /** The observable that lets go calls it, under its own lock. */
    method RemoveObservable(ghost caller: OneToOneObservable)
      requires !locked && caller.locked
      modifies this
      ensures obs == null && !locked
    {
      Lock();
      Put(null);
      Unlock();
    }

    /** The observable let go must not be the one the caller has locked. */
    method SetObservable(o: OneToOneObservable?)
      requires !locked && (obs != null ==> !obs.locked)
      modifies this, obs
      ensures obs == o && !locked
      ensures old(obs) != null ==> old(obs).l == null && !old(obs).locked
    {
      Lock();
      if obs != null {
        obs.RemoveListener(this);
      }
      Put(o);
      Unlock();
    }

    method Destroy(ghost os: set<OneToOneObservable>, ghost ls: set<Listener>)
      requires this in ls && Matching(os, ls) && Unlocked(os, ls)
      modifies os, ls
      ensures Matching(os, ls - {this}) && Unlocked(os, ls - {this})
      ensures Links(os) == WithoutListener(old(Links(os)), this)
    {
      SetObservable(null);
    }
  }

  ghost predicate Unlocked(os: set<OneToOneObservable>, ls: set<Listener>)
    reads os, ls
  {
    (forall o :: o in os ==> !o.locked) && (forall l :: l in ls ==> !l.locked)
  }

  /** An observable points to a listener exactly when the listener points to it. */
  ghost predicate Matching(os: set<OneToOneObservable>, ls: set<Listener>)
    reads os, ls
  {
    && (forall o :: o in os && o.l != null ==> o.l in ls && o.l.obs == o)
    && (forall l :: l in ls && l.obs != null ==> l.obs in os && l.obs.l == l)
  }

  ghost function Links(os: set<OneToOneObservable>): map<OneToOneObservable, Listener>
    reads os
  {
    map o | o in os && o.l != null :: o.l
  }

  /** The listener that another observable is left with when `l` gets a new one. */
  ghost function Kept(was: map<OneToOneObservable, Listener>, o: OneToOneObservable, l: Listener?): Listener? {
    if o in was && was[o] != l then was[o] else null
  }

  lemma LinksAre(
    os: set<OneToOneObservable>, was: map<OneToOneObservable, Listener>, o: OneToOneObservable, l: Listener?)
    requires was.Keys <= os && o in os && o.l == l && forall p :: p in os && p != o ==> p.l == Kept(was, p, l)
    ensures Links(os) == if l == null then Without(was, o) else Attach(was, o, l)
  {
  }

  lemma MatchingIsOneToOne(os: set<OneToOneObservable>, ls: set<Listener>)
    requires Matching(os, ls)
    ensures OneToOne(Links(os))
  {
  }
}
