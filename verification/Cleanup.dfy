/** Taking finalizers of targets that no longer exist off an object. */
module Cleanup {
  import opened Kube
  import opened FollowSafety

  predicate Unknown(known: set<string>, f: string) {
    IsOurs(f) && f !in known
  }

  /** The entries that stay, in order. */
  function Retained(known: set<string>, fs: seq<string>): seq<string> {
    if fs == [] then []
    else (if Unknown(known, fs[0]) then [] else [fs[0]]) + Retained(known, fs[1..])
  }

  method KnownSet(finalizers: seq<string>) returns (known: set<string>)
    ensures known == set f | f in finalizers
  {
    known := {};
    for i := 0 to |finalizers|
      invariant known == set f | f in finalizers[..i]
    {
      known := known + {finalizers[i]};
    }
    assert finalizers[..|finalizers|] == finalizers;
  }

  method UnknownFinalizers(known: set<string>, finalizers: seq<string>) returns (unknown: seq<string>)
    ensures forall f :: f in unknown <==> f in finalizers && Unknown(known, f)
  {
    unknown := [];
    for i := 0 to |finalizers|
      invariant forall f :: f in unknown <==> f in finalizers[..i] && Unknown(known, f)
    {
      if HasPrefix(finalizers[i], KEY_PREFIX) && finalizers[i] !in known {
        unknown := unknown + [finalizers[i]];
      }
    }
    assert finalizers[..|finalizers|] == finalizers;
  }

  /** Deleting the listed values from the finalizers on the server. */
  lemma {:induction false} StrippedRetains(known: set<string>, fs: seq<string>, unknown: seq<string>)
    requires forall f :: f in fs ==> (f in unknown <==> Unknown(known, f))
    ensures Stripped(fs, unknown) == Retained(known, fs)
  {
    if fs != [] {
      StrippedRetains(known, fs[1..], unknown);
    }
  }

  /** What the server does with the patch: `stored` may have moved on from the list the controller saw. */
  method Handle(knownFinalizers: seq<string>, seen: seq<string>, stored: seq<string>) returns (finalizers: seq<string>)
    ensures forall f :: f !in seen || f in knownFinalizers || !IsOurs(f) ==> Count(finalizers, f) == Count(stored, f)
    ensures forall f :: f in seen && KEY_PREFIX <= f && f !in knownFinalizers ==> f !in finalizers
    ensures seen == stored ==> finalizers == Retained((set f | f in knownFinalizers), stored)
  {
    var known := KnownSet(knownFinalizers);
    var unknown := UnknownFinalizers(known, seen);
    if |unknown| > 0 {
      finalizers := Stripped(stored, unknown);
    } else {
      finalizers := stored;
      StrippedNothing(stored);
    }
    assert finalizers == Stripped(stored, unknown);
    forall f | f in unknown ensures f !in finalizers {
      StrippedHasNone(stored, unknown, f);
    }
    if seen == stored {
      StrippedRetains(known, stored, unknown);
    }
    forall f | f !in seen || f in knownFinalizers || !IsOurs(f) ensures Count(finalizers, f) == Count(stored, f) {
      StrippedCount(stored, unknown, f);
    }
  }

  lemma {:induction false} StrippedHasNone(fs: seq<string>, unknown: seq<string>, f: string)
    requires f in unknown
    ensures f !in Stripped(fs, unknown)
  {
    if fs != [] {
      StrippedHasNone(fs[1..], unknown, f);
    }
  }

  lemma {:induction false} StrippedNothing(fs: seq<string>)
    ensures Stripped(fs, []) == fs
  {
    if fs != [] {
      StrippedNothing(fs[1..]);
      assert [fs[0]] + fs[1..] == fs;
    }
  }

  lemma {:induction false} RetainedCounts(known: set<string>, fs: seq<string>, f: string)
    ensures Count(Retained(known, fs), f) == if Unknown(known, f) then 0 else Count(fs, f)
  {
    if fs != [] {
      RetainedCounts(known, fs[1..], f);
      var head := if Unknown(known, fs[0]) then [] else [fs[0]];
      CountConcat(head, Retained(known, fs[1..]), f);
      assert head != [] ==> head[1..] == [];
    }
  }

  /** Cleaning up a clean list does nothing. */
  lemma {:induction false} RetainedTwice(known: set<string>, fs: seq<string>)
    ensures Retained(known, Retained(known, fs)) == Retained(known, fs)
  {
    if fs != [] {
      RetainedTwice(known, fs[1..]);
      var rest := Retained(known, fs[1..]);
      if !Unknown(known, fs[0]) {
        assert ([fs[0]] + rest)[1..] == rest;
      } else {
        assert [] + rest == rest;
      }
    }
  }

  /** Its patch is the step of the follow protocol that takes unknown finalizers: it never takes one that a
      configured target uses. */
  lemma CleanupIsAStep(cfg: Config, s: State, k: Key, knownFinalizers: seq<string>, unknown: seq<string>)
    requires k in s.local.objs
    requires forall t :: t in cfg.targets ==> cfg.targets[t] in knownFinalizers
    requires forall f :: f in unknown ==> Unknown((set g | g in knownFinalizers), f)
    ensures Enabled(cfg, s, Step.Cleanup(k, unknown))
  {
  }
}
