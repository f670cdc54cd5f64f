/** Bounded names made of parts, and the virtual node names and finalizers of targets made from them. */
module Names {
  import opened Kube

  const SHORT := 63
  const LONG := 253
  const HASH_LENGTH := 10

  function Join(parts: seq<string>, sep: string): string {
    if parts == [] then ""
    else if |parts| == 1 then parts[0]
    else parts[0] + sep + Join(parts[1..], sep)
  }

  function NonEmpty(parts: seq<string>): seq<string> {
    if parts == [] then []
    else (if parts[0] == "" then [] else [parts[0]]) + NonEmpty(parts[1..])
  }

  lemma {:induction false} NonEmptyConcat(a: seq<string>, b: seq<string>)
    ensures NonEmpty(a + b) == NonEmpty(a) + NonEmpty(b)
  {
    if a == [] {
      assert a + b == b;
    } else {
      assert (a + b)[1..] == a[1..] + b;
      NonEmptyConcat(a[1..], b);
    }
  }

  /** Joining with dashes may be ambiguous: a part that varies contains a dash, next to others that vary
      too, or one of several optional parts is empty. */
  predicate Ambiguous(constantIndices: seq<int>, optionalIndices: seq<int>, parts: seq<string>) {
    exists i :: 0 <= i < |parts| && PartAmbiguous(constantIndices, optionalIndices, |parts|, i, parts[i])
  }

  predicate PartAmbiguous(constantIndices: seq<int>, optionalIndices: seq<int>, n: nat, i: int, part: string) {
    if part != "" then '-' in part && i !in constantIndices && n - |constantIndices| > 1
    else |optionalIndices| > 1
  }

  /** Dashes at the end removed. */
  function Trimmed(s: string): string {
    if s != "" && s[|s| - 1] == '-' then Trimmed(s[..|s| - 1]) else s
  }

  /** No result means that the original slices out of bounds. */
  function Truncated(lengthLimit: int, s: string): Option<string> {
    if |s| <= lengthLimit then Some(s)
    else if lengthLimit < 0 || Trimmed(s[..lengthLimit]) == "" then None
    else Some(Trimmed(s[..lengthLimit]))
  }

  function WithHash(lengthLimit: int, hash: string -> string, key: string, s: string): Option<string> {
    match Truncated(lengthLimit - HASH_LENGTH - 1, s)
    case None => None
    case Some(prefix) => Some(prefix + "-" + hash(key))
  }

  predicate NeedsHash(lengthLimit: int, constantIndices: seq<int>, optionalIndices: seq<int>, parts: seq<string>) {
    Ambiguous(constantIndices, optionalIndices, parts) || |Join(NonEmpty(parts), "-")| > lengthLimit
  }

  function Name(lengthLimit: int, constantIndices: seq<int>, optionalIndices: seq<int>, parts: seq<string>,
                hash: string -> string): Option<string> {
    var s := Join(NonEmpty(parts), "-");
    if NeedsHash(lengthLimit, constantIndices, optionalIndices, parts)
    then WithHash(lengthLimit, hash, Join(parts, "/"), s)
    else Some(s)
  }

  // ---- The loops ----

  method Truncate(lengthLimit: int, s: string) returns (r: Option<string>)
    ensures r == Truncated(lengthLimit, s)
  {
    var tooLongBy := |s| - lengthLimit;
    if tooLongBy <= 0 {
      return Some(s);
    }
    if tooLongBy > |s| {
      return None;
    }
    var t := s[..|s| - tooLongBy];
    while t != "" && t[|t| - 1] == '-'
      invariant Trimmed(t) == Trimmed(s[..lengthLimit])
      decreases |t|
    {
      t := t[..|t| - 1];
    }
    return if t == "" then None else Some(t);
  }

  method FromParts(lengthLimit: int, constantIndices: seq<int>, optionalIndices: seq<int>, parts: seq<string>,
                   hash: string -> string)
    returns (r: Option<string>)
    ensures r == Name(lengthLimit, constantIndices, optionalIndices, parts, hash)
  {
    var m: set<int> := {};
    for j := 0 to |constantIndices|
      invariant forall i :: i in m <==> i in constantIndices[..j]
    {
      m := m + {constantIndices[j]};
    }
    assert constantIndices[..|constantIndices|] == constantIndices;
    var hashRequired := false;
    var nonEmptyParts: seq<string> := [];
    for i := 0 to |parts|
      invariant nonEmptyParts == NonEmpty(parts[..i])
      invariant hashRequired <==>
        exists j :: 0 <= j < i && PartAmbiguous(constantIndices, optionalIndices, |parts|, j, parts[j])
    {
      var p := parts[i];
      assert parts[..i + 1] == parts[..i] + [p];
      NonEmptyConcat(parts[..i], [p]);
      assert [p][1..] == [];
      if p != "" {
        nonEmptyParts := nonEmptyParts + [p];
        if '-' in p && i !in m && |parts| - |constantIndices| > 1 {
          hashRequired := true;
        }
      } else if |optionalIndices| > 1 {
        hashRequired := true;
      }
    }
    assert parts[..|parts|] == parts;
    var s := Join(nonEmptyParts, "-");
    if !hashRequired && |s| <= lengthLimit {
      return Some(s);
    }
    var prefix := Truncate(lengthLimit - HASH_LENGTH - 1, s);
    match prefix
    case None => return None;
    case Some(t) => return Some(t + "-" + hash(Join(parts, "/")));
  }

  // ---- Length, and when there is a result ----

  /** Hexadecimal digits of a fixed number. */
  ghost predicate IsHash(hash: string -> string) {
    forall key :: |hash(key)| == HASH_LENGTH && '-' !in hash(key)
  }

  lemma {:induction false} TrimmedIs(s: string)
    ensures Trimmed(s) <= s && |Trimmed(s)| <= |s| && (Trimmed(s) != "" ==> Trimmed(s)[|Trimmed(s)| - 1] != '-')
    ensures forall i :: |Trimmed(s)| <= i < |s| ==> s[i] == '-'
    decreases |s|
  {
    if s != "" && s[|s| - 1] == '-' {
      TrimmedIs(s[..|s| - 1]);
    }
  }

  lemma LengthBound(lengthLimit: int, constantIndices: seq<int>, optionalIndices: seq<int>, parts: seq<string>,
                    hash: string -> string)
    requires IsHash(hash)
    ensures var r := Name(lengthLimit, constantIndices, optionalIndices, parts, hash); r.Some? ==>
      |r.value| <= lengthLimit
  {
    var s := Join(NonEmpty(parts), "-");
    var limit := lengthLimit - HASH_LENGTH - 1;
    if 0 <= limit < |s| {
      TrimmedIs(s[..limit]);
    }
  }

  /** The trimming loop runs out of characters exactly when everything it may keep is dashes. */
  lemma NoResult(lengthLimit: int, constantIndices: seq<int>, optionalIndices: seq<int>, parts: seq<string>,
                 hash: string -> string)
    ensures var s, limit := Join(NonEmpty(parts), "-"), lengthLimit - HASH_LENGTH - 1;
      Name(lengthLimit, constantIndices, optionalIndices, parts, hash).None? <==>
        && NeedsHash(lengthLimit, constantIndices, optionalIndices, parts) && |s| > limit
        && (forall i :: 0 <= i < limit ==> s[i] == '-')
  {
    var s, limit := Join(NonEmpty(parts), "-"), lengthLimit - HASH_LENGTH - 1;
    if 0 <= limit < |s| {
      var t := s[..limit];
      TrimmedIs(t);
      if Trimmed(t) != "" {
        var i := |Trimmed(t)| - 1;
        assert s[i] == t[i] == Trimmed(t)[i] != '-';
      } else {
        forall i | 0 <= i < limit ensures s[i] == '-' {
          assert s[i] == t[i];
        }
      }
    }
  }

  /** Parts that start with something else than a dash leave something to keep. */
  lemma AlwaysResult(lengthLimit: int, constantIndices: seq<int>, optionalIndices: seq<int>, parts: seq<string>,
                     hash: string -> string)
    requires lengthLimit > HASH_LENGTH + 1
    requires forall p :: p in parts && p != "" ==> p[0] != '-'
    ensures Name(lengthLimit, constantIndices, optionalIndices, parts, hash).Some?
  {
    NoResult(lengthLimit, constantIndices, optionalIndices, parts, hash);
    NonEmptyStart(parts);
  }

  lemma {:induction false} NonEmptyStart(parts: seq<string>)
    requires forall p :: p in parts && p != "" ==> p[0] != '-'
    ensures var s := Join(NonEmpty(parts), "-"); s != "" ==> s[0] != '-'
  {
    if parts != [] {
      NonEmptyStart(parts[1..]);
      var rest := NonEmpty(parts[1..]);
      assert parts[0] != "" ==> ([parts[0]] + rest)[1..] == rest;
    }
  }

  // ---- Target identities ----

  /** A target; the namespace is empty for one that spans the cluster. */
  datatype Target = Target(ns: string, name: string)

  ghost predicate ValidTarget(t: Target) {
    && t.name != "" && '/' !in t.ns && '/' !in t.name
    && t.name[0] != '-' && (t.ns != "" ==> t.ns[0] != '-')
  }

  function VirtualNodeName(t: Target, hash: string -> string): Option<string> {
    Name(LONG, [0], [1], ["admiralty", t.ns, t.name], hash)
  }

  function FinalizerPart(t: Target, hash: string -> string): Option<string> {
    Name(SHORT, [], [0], [t.ns, t.name], hash)
  }

  function Finalizer(t: Target, hash: string -> string): Option<string> {
    match FinalizerPart(t, hash)
    case None => None
    case Some(s) => Some(KEY_PREFIX + s)
  }

  /** The text that is hashed. */
  function NodeHashKey(t: Target): string { "admiralty/" + t.ns + "/" + t.name }
  function FinalizerHashKey(t: Target): string { t.ns + "/" + t.name }

  /** What joins the parts when none of them is dropped or hashed. */
  function Plain(t: Target): string {
    if t.ns == "" then t.name else t.ns + "-" + t.name
  }

  /** Neither part contains a dash. */
  predicate Simple(t: Target) {
    '-' !in t.ns && '-' !in t.name
  }

  /** Two strings that end in a dash and a dash-free rest agree on both pieces. */
  lemma LastDash(x: string, p: string, y: string, q: string)
    requires x + "-" + p == y + "-" + q && '-' !in p && '-' !in q
    ensures x == y && p == q
  {
    var s := x + "-" + p;
    var t := y + "-" + q;
    assert s[|x|] == '-' && t[|y|] == '-';
    forall i | |x| < i < |s| ensures s[i] != '-' {
      assert s[i] == p[i - |x| - 1];
    }
    forall i | |y| < i < |t| ensures t[i] != '-' {
      assert t[i] == q[i - |y| - 1];
    }
    assert x == s[..|x|] && y == t[..|y|] && p == s[|x| + 1..] && q == t[|y| + 1..];
  }

  lemma PlainInjective(a: Target, b: Target)
    requires Simple(a) && Simple(b) && a.name != "" && b.name != "" && Plain(a) == Plain(b)
    ensures a == b
  {
    assert b.ns != "" ==> Plain(b)[|b.ns|] == '-';
    assert a.ns != "" ==> Plain(a)[|a.ns|] == '-';
    if a.ns != "" && b.ns != "" {
      LastDash(a.ns, a.name, b.ns, b.name);
    }
  }

  lemma JoinTwo(a: string, b: string, sep: string)
    ensures Join([a, b], sep) == a + sep + b
  {
    assert [a, b][1..] == [b];
  }

  lemma JoinThree(a: string, b: string, c: string, sep: string)
    ensures Join([a, b, c], sep) == a + sep + b + sep + c
  {
    assert [a, b, c][1..] == [b, c];
    JoinTwo(b, c, sep);
  }

  lemma NonEmptyOne(p: string)
    ensures NonEmpty([p]) == if p == "" then [] else [p]
  {
    assert [p][1..] == [];
  }

  lemma FinalizerParts(t: Target, hash: string -> string)
    requires t.name != ""
    ensures FinalizerPart(t, hash) ==
      if Simple(t) && |Plain(t)| <= SHORT then Some(Plain(t)) else WithHash(SHORT, hash, FinalizerHashKey(t), Plain(t))
  {
    var parts := [t.ns, t.name];
    assert parts[1..] == [t.name];
    NonEmptyOne(t.name);
    JoinTwo(t.ns, t.name, "/");
    JoinTwo(t.ns, t.name, "-");
    assert PartAmbiguous([], [0], 2, 0, parts[0]) <==> '-' in t.ns;
    assert PartAmbiguous([], [0], 2, 1, parts[1]) <==> '-' in t.name;
  }

  lemma NodeJoined(t: Target)
    requires t.name != ""
    ensures Join(NonEmpty(["admiralty", t.ns, t.name]), "-") == "admiralty-" + Plain(t)
    ensures Join(["admiralty", t.ns, t.name], "/") == NodeHashKey(t)
  {
    var parts := ["admiralty", t.ns, t.name];
    assert parts[1..] == [t.ns, t.name] && [t.ns, t.name][1..] == [t.name];
    NonEmptyOne(t.name);
    JoinThree("admiralty", t.ns, t.name, "/");
    JoinThree("admiralty", t.ns, t.name, "-");
    JoinTwo("admiralty", t.name, "-");
    assert "admiralty" + "/" + t.ns + "/" + t.name == NodeHashKey(t);
    assert "admiralty" + "-" + t.ns + "-" + t.name == "admiralty-" + (t.ns + "-" + t.name);
    assert "admiralty" + "-" + t.name == "admiralty-" + t.name;
    assert NonEmpty(parts) == ["admiralty"] + (if t.ns == "" then [t.name] else [t.ns, t.name]);
  }

  lemma NodeParts(t: Target, hash: string -> string)
    requires t.name != ""
    ensures VirtualNodeName(t, hash) ==
      if Simple(t) && |"admiralty-" + Plain(t)| <= LONG then Some("admiralty-" + Plain(t))
      else WithHash(LONG, hash, NodeHashKey(t), "admiralty-" + Plain(t))
  {
    var parts := ["admiralty", t.ns, t.name];
    NodeJoined(t);
    assert PartAmbiguous([0], [1], 3, 1, parts[1]) <==> '-' in t.ns;
    assert PartAmbiguous([0], [1], 3, 2, parts[2]) <==> '-' in t.name;
    assert !PartAmbiguous([0], [1], 3, 0, parts[0]);
  }

  predicate PlainNode(t: Target) {
    Simple(t) && |"admiralty-" + Plain(t)| <= LONG
  }

  predicate PlainFinalizer(t: Target) {
    Simple(t) && |Plain(t)| <= SHORT
  }

  /** What is left of the plain name in front of a hash. */
  function NodeStem(t: Target): Option<string> {
    Truncated(LONG - HASH_LENGTH - 1, "admiralty-" + Plain(t))
  }

  function FinalizerStem(t: Target): Option<string> {
    Truncated(SHORT - HASH_LENGTH - 1, Plain(t))
  }

  /** A name without its last segment. */
  function NodeHead(t: Target): string {
    if t.ns == "" then "admiralty" else "admiralty-" + t.ns
  }

  /** The ways two virtual node names can coincide: cut to the same text with the same hash, or one target's
      name reads as the other's hash and the rest as what is in front of it. */
  predicate NodeClash(a: Target, b: Target, hash: string -> string) {
    || (!PlainNode(a) && !PlainNode(b) && NodeStem(a) == NodeStem(b) && hash(NodeHashKey(a)) == hash(NodeHashKey(b)))
    || (PlainNode(a) && !PlainNode(b) && NodeStem(b) == Some(NodeHead(a)) && a.name == hash(NodeHashKey(b)))
    || (PlainNode(b) && !PlainNode(a) && NodeStem(a) == Some(NodeHead(b)) && b.name == hash(NodeHashKey(a)))
  }

  predicate FinalizerClash(a: Target, b: Target, hash: string -> string) {
    || (!PlainFinalizer(a) && !PlainFinalizer(b) && FinalizerStem(a) == FinalizerStem(b)
        && hash(FinalizerHashKey(a)) == hash(FinalizerHashKey(b)))
    || (PlainFinalizer(a) && !PlainFinalizer(b) && FinalizerStem(b) == Some(a.ns)
        && a.name == hash(FinalizerHashKey(b)))
    || (PlainFinalizer(b) && !PlainFinalizer(a) && FinalizerStem(a) == Some(b.ns)
        && b.name == hash(FinalizerHashKey(a)))
  }

  /** Two hashed names are equal exactly if both pieces are. */
  lemma HashedEqual(hash: string -> string, key: string, x: string, key': string, y: string)
    requires IsHash(hash)
    ensures x + "-" + hash(key) == y + "-" + hash(key') <==> x == y && hash(key) == hash(key')
  {
    if x + "-" + hash(key) == y + "-" + hash(key') {
      LastDash(x, hash(key), y, hash(key'));
    }
  }

  /** A plain and a hashed virtual node name. */
  lemma NodeMeetsHash(t: Target, x: string, h: string)
    requires Simple(t) && '-' !in h
    ensures "admiralty-" + Plain(t) == x + "-" + h <==> x == NodeHead(t) && h == t.name
  {
    assert "admiralty-" + Plain(t) == NodeHead(t) + "-" + t.name;
    if NodeHead(t) + "-" + t.name == x + "-" + h {
      LastDash(NodeHead(t), t.name, x, h);
    }
  }

  lemma FinalizerMeetsHash(t: Target, x: string, h: string)
    requires Simple(t) && '-' !in h && x != ""
    ensures Plain(t) == x + "-" + h <==> x == t.ns && h == t.name
  {
    assert (x + "-" + h)[|x|] == '-';
    if t.ns != "" && Plain(t) == x + "-" + h {
      LastDash(t.ns, t.name, x, h);
    }
  }

  lemma StemsExist(t: Target)
    requires ValidTarget(t)
    ensures FinalizerStem(t).Some? && FinalizerStem(t).value != "" && NodeStem(t).Some?
  {
    var limit, s := SHORT - HASH_LENGTH - 1, Plain(t);
    if |s| > limit {
      TrimmedIs(s[..limit]);
      assert s[..limit][0] != '-';
    }
    var limit', s' := LONG - HASH_LENGTH - 1, "admiralty-" + Plain(t);
    if |s'| > limit' {
      TrimmedIs(s'[..limit']);
      assert s'[..limit'][0] == 'a';
    }
  }

  /** Distinct targets share a virtual node name if and only if they clash in one of those ways. */
  lemma NodeNamesCollide(a: Target, b: Target, hash: string -> string)
    requires IsHash(hash) && ValidTarget(a) && ValidTarget(b) && a != b
    ensures VirtualNodeName(a, hash).Some?
    ensures VirtualNodeName(a, hash) == VirtualNodeName(b, hash) <==> NodeClash(a, b, hash)
  {
    NodeParts(a, hash);
    NodeParts(b, hash);
    StemsExist(a);
    StemsExist(b);
    var pa, pb := "admiralty-" + Plain(a), "admiralty-" + Plain(b);
    if PlainNode(a) && PlainNode(b) {
      assert pa[10..] == Plain(a) && pb[10..] == Plain(b);
      if pa == pb {
        PlainInjective(a, b);
      }
    } else if PlainNode(a) {
      NodeMeetsHash(a, NodeStem(b).value, hash(NodeHashKey(b)));
    } else if PlainNode(b) {
      NodeMeetsHash(b, NodeStem(a).value, hash(NodeHashKey(a)));
    } else {
      HashedEqual(hash, NodeHashKey(a), NodeStem(a).value, NodeHashKey(b), NodeStem(b).value);
    }
  }

  lemma FinalizerPartsCollide(a: Target, b: Target, hash: string -> string)
    requires IsHash(hash) && ValidTarget(a) && ValidTarget(b) && a != b
    ensures FinalizerPart(a, hash).Some? && FinalizerPart(b, hash).Some?
    ensures FinalizerPart(a, hash) == FinalizerPart(b, hash) <==> FinalizerClash(a, b, hash)
  {
    FinalizerParts(a, hash);
    FinalizerParts(b, hash);
    StemsExist(a);
    StemsExist(b);
    if PlainFinalizer(a) && PlainFinalizer(b) {
      if Plain(a) == Plain(b) {
        PlainInjective(a, b);
      }
    } else if PlainFinalizer(a) {
      FinalizerMeetsHash(a, FinalizerStem(b).value, hash(FinalizerHashKey(b)));
    } else if PlainFinalizer(b) {
      FinalizerMeetsHash(b, FinalizerStem(a).value, hash(FinalizerHashKey(a)));
    } else {
      HashedEqual(hash, FinalizerHashKey(a), FinalizerStem(a).value, FinalizerHashKey(b), FinalizerStem(b).value);
    }
  }

  /** Distinct targets share a finalizer if and only if they clash; every target has one, with the prefix. */
  lemma FinalizersCollide(a: Target, b: Target, hash: string -> string)
    requires IsHash(hash) && ValidTarget(a) && ValidTarget(b) && a != b
    ensures Finalizer(a, hash).Some? && IsOurs(Finalizer(a, hash).value)
    ensures Finalizer(a, hash) == Finalizer(b, hash) <==> FinalizerClash(a, b, hash)
  {
    FinalizerPartsCollide(a, b, hash);
    var fa, fb := FinalizerPart(a, hash).value, FinalizerPart(b, hash).value;
    assert fa == (KEY_PREFIX + fa)[|KEY_PREFIX|..] && fb == (KEY_PREFIX + fb)[|KEY_PREFIX|..];
  }

  // ---- Spelled out ----

  /** Short names without dashes are joined as they are. */
  lemma PlainNames(t: Target, hash: string -> string)
    requires t.name != "" && '-' !in t.ns && '-' !in t.name && |t.ns| + |t.name| <= 62
    ensures t.ns == "" ==>
      && VirtualNodeName(t, hash) == Some("admiralty-" + t.name)
      && Finalizer(t, hash) == Some("multicluster.admiralty.io/" + t.name)
    ensures t.ns != "" ==>
      && VirtualNodeName(t, hash) == Some("admiralty-" + t.ns + "-" + t.name)
      && Finalizer(t, hash) == Some("multicluster.admiralty.io/" + t.ns + "-" + t.name)
  {
    NodeParts(t, hash);
    FinalizerParts(t, hash);
    assert "admiralty-" + (t.ns + "-" + t.name) == "admiralty-" + t.ns + "-" + t.name;
    assert KEY_PREFIX + (t.ns + "-" + t.name) == "multicluster.admiralty.io/" + t.ns + "-" + t.name;
  }

  /** Names with a dash in a part end in the hash of the parts joined by slashes. */
  lemma HashedNames(t: Target, hash: string -> string)
    requires ValidTarget(t) && ('-' in t.ns || '-' in t.name)
    ensures exists x, y ::
      && VirtualNodeName(t, hash) == Some(x + "-" + hash("admiralty/" + t.ns + "/" + t.name))
      && Finalizer(t, hash) == Some("multicluster.admiralty.io/" + y + "-" + hash(t.ns + "/" + t.name))
      && x <= "admiralty-" + (if t.ns == "" then t.name else t.ns + "-" + t.name)
      && y <= (if t.ns == "" then t.name else t.ns + "-" + t.name)
  {
    NodeParts(t, hash);
    FinalizerParts(t, hash);
    StemsExist(t);
    StemIsPrefix(LONG - HASH_LENGTH - 1, "admiralty-" + Plain(t));
    StemIsPrefix(SHORT - HASH_LENGTH - 1, Plain(t));
    var x, y := NodeStem(t).value, FinalizerStem(t).value;
    assert Finalizer(t, hash) == Some(KEY_PREFIX + (y + "-" + hash(FinalizerHashKey(t))));
    assert KEY_PREFIX + (y + "-" + hash(FinalizerHashKey(t))) ==
      "multicluster.admiralty.io/" + y + "-" + hash(t.ns + "/" + t.name);
    assert VirtualNodeName(t, hash) == Some(x + "-" + hash("admiralty/" + t.ns + "/" + t.name));
  }

  lemma StemIsPrefix(lengthLimit: int, s: string)
    ensures Truncated(lengthLimit, s).Some? ==> Truncated(lengthLimit, s).value <= s
  {
    if 0 <= lengthLimit < |s| {
      TrimmedIs(s[..lengthLimit]);
    }
  }

  // ---- A clash without equal hashes is real ----

  function Repeat(n: nat): (s: string)
    ensures |s| == n && forall i :: 0 <= i < n ==> s[i] == 'x'
  {
    if n == 0 then "" else Repeat(n - 1) + "x"
  }

  lemma RepeatPrefix(s: string, t: string)
    requires |s| == 64 && |t| == 52 && (forall i :: 0 <= i < 64 ==> s[i] == 'x')
        && (forall i :: 0 <= i < 52 ==> t[i] == 'x')
    ensures s[..52] == t && '-' !in s && '-' !in t && Trimmed(t) == t
  {
  }

  /** Whatever the hash: a long name without namespace is cut and hashed into the finalizer of the target
      whose namespace is the cut name and whose name is the hash. */
  lemma HashReadsAsName(hash: string -> string)
    requires IsHash(hash)
    ensures var b := Target("", Repeat(64)); var a := Target(Repeat(52), hash(FinalizerHashKey(b)));
      a != b && Finalizer(a, hash) == Finalizer(b, hash) && Finalizer(a, hash).Some?
  {
    var b := Target("", Repeat(64));
    var a := Target(Repeat(52), hash(FinalizerHashKey(b)));
    RepeatPrefix(b.name, a.ns);
    FinalizerParts(a, hash);
    FinalizerParts(b, hash);
  }

  // ---- The finalizers an agent knows ----

  /** A configured target with its generated finalizer. */
  datatype Agent = Agent(ns: string, finalizer: string)

  method GetKnownFinalizers(targets: seq<Agent>) returns (known: seq<string>)
    ensures |known| == |targets| && forall i :: 0 <= i < |known| ==> known[i] == targets[i].finalizer
  {
    known := [];
    for i := 0 to |targets|
      invariant |known| == i && forall j :: 0 <= j < i ==> known[j] == targets[j].finalizer
    {
      known := known + [targets[i].finalizer];
    }
  }

  /** The finalizers of one namespace's targets, in configuration order. */
  function OfNamespace(targets: seq<Agent>, ns: string): seq<string> {
    if targets == [] then []
    else
      var last := targets[|targets| - 1];
      OfNamespace(targets[..|targets| - 1], ns) + (if last.ns == ns then [last.finalizer] else [])
  }

  /** They are the finalizers of the targets of that namespace, as often as these occur. */
  lemma {:induction false} OfNamespaceFate(targets: seq<Agent>, ns: string, f: string)
    ensures multiset(OfNamespace(targets, ns))[f] == multiset(targets)[Agent(ns, f)]
  {
    if targets != [] {
      var last := |targets| - 1;
      OfNamespaceFate(targets[..last], ns, f);
      assert targets == targets[..last] + [targets[last]];
    }
  }

  method GetKnownFinalizersByNamespace(targets: seq<Agent>) returns (known: map<string, seq<string>>)
    ensures forall ns :: (if ns in known then known[ns] else []) == OfNamespace(targets, ns)
  {
    known := map[];
    for i := 0 to |targets|
      invariant forall ns :: (if ns in known then known[ns] else []) == OfNamespace(targets[..i], ns)
    {
      var t := targets[i];
      assert targets[..i + 1][..i] == targets[..i];
      known := known[t.ns := (if t.ns in known then known[t.ns] else []) + [t.finalizer]];
    }
    assert targets[..|targets|] == targets;
  }
}
