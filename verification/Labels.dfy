/** Rewriting labels and selectors into this system's domain, so that controllers of the source pods do
    not mistake delegate pods for their own while services can still select them. */
module Labels {
  import opened Kube

  /** The text before the first slash, and the text after the last one. */
  function FirstSegment(k: string): string {
    if k == "" || k[0] == '/' then "" else [k[0]] + FirstSegment(k[1..])
  }

  function LastSegment(k: string): string {
    if k == "" || k[|k| - 1] == '/' then "" else LastSegment(k[..|k| - 1]) + [k[|k| - 1]]
  }

  function NewKey(k: string): string {
    KEY_PREFIX + LastSegment(k)
  }

  /** A pattern of labels to leave alone; patterns are matched against `key=value`. */
  datatype Regexp = Absent | Invalid | Pattern(matches: string -> bool)

  predicate Kept(re: Regexp, k: string, v: string) {
    re.Pattern? && re.matches(k + "=" + v)
  }

  /** The key under which a label ends up. */
  function Rekey(re: Regexp, k: string, v: string): string {
    if Kept(re, k, v) then k else NewKey(k)
  }

  /** The possible results: every label lands under its new key, and where several land under one key,
      which of them stays depends on the iteration order. */
  ghost predicate Rewritten(re: Regexp, labels: map<string, string>, out: map<string, string>) {
    && (forall k :: k in labels ==> Rekey(re, k, labels[k]) in out)
    && (forall n :: n in out ==> exists k :: k in labels && Rekey(re, k, labels[k]) == n && labels[k] == out[n])
  }

  /** Every label is looked at as one text, and moves into the domain under its name unless the pattern matches. */
  lemma RekeySpelledOut(re: Regexp, domain: string, name: string, v: string)
    requires '/' !in name
    ensures var k := domain + "/" + name;
      Rekey(re, k, v) == if re.Pattern? && re.matches(k + "=" + v) then k else "multicluster.admiralty.io/" + name
    ensures Rekey(re, name, v) ==
      if re.Pattern? && re.matches(name + "=" + v) then name else "multicluster.admiralty.io/" + name
  {
    NewKeyNames(domain, name);
  }

  lemma {:induction false} FirstSegmentHasNoSlash(k: string)
    ensures '/' !in FirstSegment(k)
  {
    if k != "" && k[0] != '/' {
      FirstSegmentHasNoSlash(k[1..]);
    }
  }

  lemma {:induction false} LastSegmentHasNoSlash(k: string)
    ensures '/' !in LastSegment(k)
    decreases |k|
  {
    if k != "" && k[|k| - 1] != '/' {
      LastSegmentHasNoSlash(k[..|k| - 1]);
    }
  }

  /** The prefix ends in a slash, so no first segment ever equals it: keys already in the domain are
      rewritten like all others. */
  lemma NeverSpared(k: string)
    ensures FirstSegment(k) != KEY_PREFIX
  {
    FirstSegmentHasNoSlash(k);
    assert KEY_PREFIX[|KEY_PREFIX| - 1] == '/';
  }

  method ChangeLabels(labels: map<string, string>, re: Regexp) returns (out: Option<map<string, string>>, changed: bool)
    ensures out.None? <==> re.Invalid?
    ensures out.Some? ==> Rewritten(re, labels, out.value)
    ensures changed <==> !re.Invalid? && exists k :: k in labels && !Kept(re, k, labels[k])
  {
    changed := false;
    if re.Invalid? {
      return None, false;
    }
    var newLabels: map<string, string> := map[];
    var todo := labels.Keys;
    while todo != {}
      invariant todo <= labels.Keys
      invariant forall k :: k in labels && k !in todo ==> Rekey(re, k, labels[k]) in newLabels
      invariant forall n :: n in newLabels ==>
        exists k :: k in labels && k !in todo && Rekey(re, k, labels[k]) == n && labels[k] == newLabels[n]
      invariant changed <==> exists k :: k in labels && k !in todo && !Kept(re, k, labels[k])
    {
      var k :| k in todo;
      var v := labels[k];
      todo := todo - {k};
      NeverSpared(k);
      if Kept(re, k, v) {
        newLabels := newLabels[k := v];
      } else if '/' !in k || FirstSegment(k) != KEY_PREFIX {
        changed := true;
        newLabels := newLabels[KEY_PREFIX + LastSegment(k) := v];
      } else {
        newLabels := newLabels[k := v];
      }
    }
    out := Some(newLabels);
  }

  // ---- Idempotence ----

  lemma {:induction false} LastSegmentOf(a: string, seg: string)
    requires '/' !in seg
    ensures LastSegment(a + "/" + seg) == seg
    decreases |seg|
  {
    var s := a + "/" + seg;
    if seg != "" {
      assert s[..|s| - 1] == a + "/" + seg[..|seg| - 1];
      assert s[|s| - 1] == seg[|seg| - 1];
      LastSegmentOf(a, seg[..|seg| - 1]);
    }
  }

  /** The name after the last slash moves into the domain. */
  lemma NewKeyNames(domain: string, name: string)
    requires '/' !in name
    ensures NewKey(domain + "/" + name) == "multicluster.admiralty.io/" + name
    ensures NewKey(name) == "multicluster.admiralty.io/" + name
  {
    LastSegmentOf(domain, name);
    LastSegmentWhole(name);
  }

  lemma {:induction false} LastSegmentWhole(name: string)
    requires '/' !in name
    ensures LastSegment(name) == name
    decreases |name|
  {
    if name != "" {
      LastSegmentWhole(name[..|name| - 1]);
    }
  }

  lemma NewKeyTwice(k: string)
    ensures NewKey(NewKey(k)) == NewKey(k)
  {
    var seg := LastSegment(k);
    var domain := KEY_PREFIX[..|KEY_PREFIX| - 1];
    LastSegmentHasNoSlash(k);
    assert NewKey(k) == domain + "/" + seg;
    LastSegmentOf(domain, seg);
  }

  /** Rewriting a result again, in whatever order, gives that result. */
  lemma ChangeLabelsIdempotent(re: Regexp, labels: map<string, string>, once: map<string, string>,
                               twice: map<string, string>)
    requires Rewritten(re, labels, once) && Rewritten(re, once, twice)
    ensures twice == once
  {
    forall n | n in once ensures Rekey(re, n, once[n]) == n {
      var k :| k in labels && Rekey(re, k, labels[k]) == n && labels[k] == once[n];
      NewKeyTwice(k);
    }
  }

  // ---- Selection ----

  predicate Matches(selector: map<string, string>, labels: map<string, string>) {
    forall k :: k in selector ==> k in labels && labels[k] == selector[k]
  }

  /** A selected label of the pod lands under the same key as a label with another value. */
  predicate Conflict(re: Regexp, selector: map<string, string>, labels: map<string, string>) {
    exists k, k' :: k in selector && k' in labels && labels[k'] != selector[k]
        && Rekey(re, k', labels[k']) == Rekey(re, k, selector[k])
  }

  /** Some result with a chosen winner under one key. */
  lemma Winner(re: Regexp, labels: map<string, string>, k: string) returns (out: map<string, string>)
    requires k in labels
    ensures Rewritten(re, labels, out) && Rekey(re, k, labels[k]) in out && out[Rekey(re, k, labels[k])] == labels[k]
  {
    var keys := set k' | k' in labels :: Rekey(re, k', labels[k']);
    out := map n | n in keys :: var k' :| k' in labels && Rekey(re, k', labels[k']) == n; labels[k'];
    forall n | n in out ensures exists k' :: k' in labels && Rekey(re, k', labels[k']) == n && labels[k'] == out[n] {
      var k' :| k' in labels && Rekey(re, k', labels[k']) == n && out[n] == labels[k'];
    }
    out := out[Rekey(re, k, labels[k]) := labels[k]];
  }

  /** A selector that matches the source pod, rewritten with the same pattern, matches the delegate pod
      whatever the iteration orders, exactly when no selected label meets a label with another value. */
  lemma SelectionPreserved(re: Regexp, selector: map<string, string>, labels: map<string, string>)
    requires Matches(selector, labels)
    ensures (forall selector', labels' :: Rewritten(re, selector, selector') && Rewritten(re, labels, labels') ==>
             Matches(selector', labels'))
            <==> !Conflict(re, selector, labels)
  {
    if Conflict(re, selector, labels) {
      var k, k' :| k in selector && k' in labels && labels[k'] != selector[k]
          && Rekey(re, k', labels[k']) == Rekey(re, k, selector[k]);
      var selector' := Winner(re, selector, k);
      var labels' := Winner(re, labels, k');
      assert Rewritten(re, selector, selector') && Rewritten(re, labels, labels') && !Matches(selector', labels');
    } else {
      forall selector', labels' | Rewritten(re, selector, selector') && Rewritten(re, labels, labels')
        ensures Matches(selector', labels')
      {
        MatchesAfter(re, selector, labels, selector', labels');
      }
    }
  }

  lemma MatchesAfter(re: Regexp, selector: map<string, string>, labels: map<string, string>,
                     selector': map<string, string>, labels': map<string, string>)
    requires Matches(selector, labels) && !Conflict(re, selector, labels)
    requires Rewritten(re, selector, selector') && Rewritten(re, labels, labels')
    ensures Matches(selector', labels')
  {
    forall n | n in selector' ensures n in labels' && labels'[n] == selector'[n] {
      var k :| k in selector && Rekey(re, k, selector[k]) == n && selector[k] == selector'[n];
      assert Rekey(re, k, labels[k]) in labels';
      var k' :| k' in labels && Rekey(re, k', labels[k']) == n && labels[k'] == labels'[n];
    }
  }

  /** Without key collisions the rewritten selector selects no more than the original. */
  lemma SelectionReflected(re: Regexp, selector: map<string, string>, labels: map<string, string>,
                           selector': map<string, string>, labels': map<string, string>)
    requires Rewritten(re, selector, selector') && Rewritten(re, labels, labels')
    requires forall k, k' ::
      (k in selector && k' in labels && Rekey(re, k', labels[k']) == Rekey(re, k, selector[k])) ==> k == k'
    requires forall k, k' ::
      (k in selector && k' in selector && Rekey(re, k', selector[k']) == Rekey(re, k, selector[k])) ==> k == k'
    ensures Matches(selector, labels) <==> Matches(selector', labels')
  {
    if Matches(selector, labels) {
      MatchesAfter(re, selector, labels, selector', labels');
    }
    if Matches(selector', labels') {
      forall k | k in selector ensures k in labels && labels[k] == selector[k] {
        var n := Rekey(re, k, selector[k]);
        assert n in selector' && n in labels';
        var k0 :| k0 in selector && Rekey(re, k0, selector[k0]) == n && selector[k0] == selector'[n];
        var k' :| k' in labels && Rekey(re, k', labels[k']) == n && labels[k'] == labels'[n];
      }
    }
  }
}
