/** The ready-listener registry as values: what one `onReady(f)` call and a
    run of such calls do to the ordered list of registered listeners. */
module Registry {

  /** The identity of a registered zero-argument callback; the program compares
      callbacks by reference, here by this id. */
  type ListenerId = nat

  /** No listener is registered twice. */
  predicate NoDup(ls: seq<ListenerId>)
  {
    forall i, j :: 0 <= i < j < |ls| ==> ls[i] != ls[j]
  }

  /** The list after `onReady(f)`: `f` appended at the end when it is not yet
      registered, the list unchanged when it is. */
  function Registered(ls: seq<ListenerId>, f: ListenerId): (r: seq<ListenerId>)
    ensures f in ls ==> r == ls
    ensures f !in ls ==> r == ls + [f]
    ensures f in r
    ensures |ls| <= |r| && r[..|ls|] == ls
    ensures NoDup(ls) ==> NoDup(r)
  {
    if f in ls then ls else ls + [f]
  }

  /** Registering the same listener again changes nothing. */
  lemma RegisteredIdempotent(ls: seq<ListenerId>, f: ListenerId)
    ensures Registered(Registered(ls, f), f) == Registered(ls, f)
  {
  }

  /** The list after `onReady(fs[0])`, ..., `onReady(fs[|fs|-1])`. */
  function RegisterAll(ls: seq<ListenerId>, fs: seq<ListenerId>): seq<ListenerId>
    decreases |fs|
  {
    if fs == [] then ls else RegisterAll(Registered(ls, fs[0]), fs[1..])
  }

  /** Any run of registrations keeps the list duplicate-free. */
  lemma {:induction false} RegisterAllNoDup(ls: seq<ListenerId>, fs: seq<ListenerId>)
    requires NoDup(ls)
    ensures NoDup(RegisterAll(ls, fs))
    decreases |fs|
  {
    if fs != [] {
      RegisterAllNoDup(Registered(ls, fs[0]), fs[1..]);
    }
  }

  /** Any run of registrations keeps what was registered before as a prefix:
      listeners stay in registration order. */
  lemma {:induction false} RegisterAllKeepsPrefix(ls: seq<ListenerId>, fs: seq<ListenerId>)
    ensures |ls| <= |RegisterAll(ls, fs)| && RegisterAll(ls, fs)[..|ls|] == ls
    decreases |fs|
  {
    if fs != [] {
      var next := Registered(ls, fs[0]);
      RegisterAllKeepsPrefix(next, fs[1..]);
      assert RegisterAll(ls, fs)[..|next|][..|ls|] == RegisterAll(ls, fs)[..|ls|];
    }
  }

  /** After any run of registrations the list holds exactly the listeners
      registered before or during the run. */
  lemma {:induction false} RegisterAllMembers(ls: seq<ListenerId>, fs: seq<ListenerId>, g: ListenerId)
    ensures g in RegisterAll(ls, fs) <==> g in ls || g in fs
    decreases |fs|
  {
    if fs != [] {
      var next := Registered(ls, fs[0]);
      RegisterAllMembers(next, fs[1..], g);
      assert g in next <==> g in ls || g == fs[0];
      assert g in fs <==> g == fs[0] || g in fs[1..] by {
        assert fs == [fs[0]] + fs[1..];
      }
    }
  }

  /** Registering listeners that are all registered already changes nothing. */
  lemma {:induction false} RegisterAllPresent(ls: seq<ListenerId>, fs: seq<ListenerId>)
    requires forall g :: g in fs ==> g in ls
    ensures RegisterAll(ls, fs) == ls
    decreases |fs|
  {
    if fs != [] {
      assert fs[0] in fs;
      forall g | g in fs[1..] ensures g in ls {
        assert g in fs;
      }
      RegisterAllPresent(ls, fs[1..]);
    }
  }

  /** Repeating a run of registrations changes nothing: each listener ends up
      registered once, however often `onReady` is called with it. */
  lemma RegisterAllIdempotent(ls: seq<ListenerId>, fs: seq<ListenerId>)
    ensures RegisterAll(RegisterAll(ls, fs), fs) == RegisterAll(ls, fs)
  {
    forall g | g in fs ensures g in RegisterAll(ls, fs) {
      RegisterAllMembers(ls, fs, g);
    }
    RegisterAllPresent(RegisterAll(ls, fs), fs);
  }
}
