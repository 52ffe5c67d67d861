/** `reconcileTruthClaims`: claims about the same key agree, or one authority decides, or the
    conflict is reported. */
module Truth {
  import opened Base
  import opened Ordering
  import opened Sorting

  /** A claimed value: what `isDeepStrictEqual` tells apart, and its canonical JSON text, by which
      claims are sorted.  Different values may share a text, as zero and minus zero do. */
  datatype Value = Value(identity: string, text: string)

  /** A claim; `rest` is all that plays no part in the decision. */
  datatype Claim = Claim(key: string, owner: string, sourceRef: string, value: Value, kind: string, rest: string)

  datatype Rule = Rule(key: string, kind: string, owner: string)

  datatype Reason =
    | NoApplicableAuthority | AmbiguousAuthorityRule | AuthoritativeSourceMissing | AuthoritativeDisagreement

  datatype Conflict = Conflict(key: string, reason: Reason, owners: seq<string>, sourceRefs: seq<string>)

  datatype Resolution = Resolution(key: string, owner: string, selected: string, superseded: seq<string>)

  datatype Reconciliation =
    | Accepted(claims: seq<Claim>, resolutions: seq<Resolution>)
    | Required(conflicts: seq<Conflict>)

  /** What `compareClaims` compares, in its order.  Claims that differ only elsewhere are ties. */
  function SortKey(c: Claim): seq<string> { [c.key, c.owner, c.sourceRef, c.value.text] }

  /** Lexicographic order of lists of strings. */
  predicate AtMost(a: seq<string>, b: seq<string>) {
    if a == [] then true
    else if b == [] then false
    else if a[0] == b[0] then AtMost(a[1..], b[1..])
    else Below(a[0], b[0])
  }

  lemma {:induction false} AtMostTotal(a: seq<string>, b: seq<string>)
    requires |a| == |b|
    ensures AtMost(a, b) || AtMost(b, a)
    ensures AtMost(a, b) && AtMost(b, a) ==> a == b
  {
    if a != [] {
      BelowTotal(a[0], b[0]);
      AtMostTotal(a[1..], b[1..]);
      assert a == [a[0]] + a[1..] && b == [b[0]] + b[1..];
    }
  }

  lemma {:induction false} AtMostTransitive(a: seq<string>, b: seq<string>, c: seq<string>)
    requires |a| == |b| == |c| && AtMost(a, b) && AtMost(b, c)
    ensures AtMost(a, c)
  {
    if a != [] {
      if a[0] == b[0] == c[0] {
        AtMostTransitive(a[1..], b[1..], c[1..]);
      } else if a[0] != b[0] && b[0] != c[0] {
        BelowTransitive(a[0], b[0], c[0]);
        BelowTotal(a[0], b[0]);
      }
    }
  }

  predicate NotAfter(c: Claim, d: Claim) { AtMost(SortKey(c), SortKey(d)) }

  predicate InOrder(cs: seq<Claim>) {
    forall i, j :: 0 <= i < j < |cs| ==> NotAfter(cs[i], cs[j])
  }

  lemma NotAfterTransitive(a: Claim, b: Claim, c: Claim)
    requires NotAfter(a, b) && NotAfter(b, c)
    ensures NotAfter(a, c)
  {
    AtMostTransitive(SortKey(a), SortKey(b), SortKey(c));
  }

  lemma NotAfterOpen(c: Claim, d: Claim)
    ensures NotAfter(c, d) <==> AtMost(SortKey(c), SortKey(d))
  {
  }

  lemma NotAfterOrders()
    ensures TotalPreorder(NotAfter)
  {
    hide NotAfter;
    forall c, d ensures NotAfter(c, d) || NotAfter(d, c) {
      NotAfterOpen(c, d);
      NotAfterOpen(d, c);
      AtMostTotal(SortKey(c), SortKey(d));
    }
    forall a, b, c | NotAfter(a, b) && NotAfter(b, c) ensures NotAfter(a, c) { NotAfterTransitive(a, b, c); }
  }

  /** `toSorted(compareClaims)`, which is stable. */
  function SortClaims(cs: seq<Claim>): (r: seq<Claim>)
    ensures InOrder(r) && multiset(r) == multiset(cs)
  {
    NotAfterOrders();
    SortBy(cs, NotAfter)
  }

  /** Sorting what is in order changes nothing. */
  lemma SortInOrder(cs: seq<Claim>)
    requires InOrder(cs)
    ensures SortClaims(cs) == cs
  {
    hide NotAfter;
    NotAfterOrders();
    SortedStays(cs, NotAfter);
  }

  /** Which claims of a list are meant. */
  datatype Filter = OfKey(key: string) | OfAuthority(owner: string, kind: string) | OfOthers(owner: string,
    kind: string)

  predicate Chosen(f: Filter, c: Claim) {
    match f
    case OfKey(key) => c.key == key
    case OfAuthority(owner, kind) => c.owner == owner && c.kind == kind
    case OfOthers(owner, kind) => !(c.owner == owner && c.kind == kind)
  }

  function Filtered(cs: seq<Claim>, f: Filter): seq<Claim> {
    if cs == [] then []
    else
      var earlier := Filtered(cs[..|cs| - 1], f);
      if Chosen(f, cs[|cs| - 1]) then earlier + [cs[|cs| - 1]] else earlier
  }

  lemma {:induction false} FilteredCount(cs: seq<Claim>, f: Filter, c: Claim)
    ensures multiset(Filtered(cs, f))[c] == if Chosen(f, c) then multiset(cs)[c] else 0
  {
    if cs != [] {
      FilteredCount(cs[..|cs| - 1], f, c);
      assert cs == cs[..|cs| - 1] + [cs[|cs| - 1]];
    }
  }

  lemma FilteredMembers(cs: seq<Claim>, f: Filter)
    ensures forall c :: c in Filtered(cs, f) <==> c in cs && Chosen(f, c)
  {
    forall c ensures c in Filtered(cs, f) <==> c in cs && Chosen(f, c) {
      FilteredCount(cs, f, c);
      assert c in Filtered(cs, f) <==> c in multiset(Filtered(cs, f));
      assert c in cs <==> c in multiset(cs);
    }
  }

  lemma FilteredPermuted(a: seq<Claim>, b: seq<Claim>, f: Filter)
    requires multiset(a) == multiset(b)
    ensures multiset(Filtered(a, f)) == multiset(Filtered(b, f))
  {
    forall c ensures multiset(Filtered(a, f))[c] == multiset(Filtered(b, f))[c] {
      FilteredCount(a, f, c);
      FilteredCount(b, f, c);
    }
  }

  lemma {:induction false} FilteredInOrder(cs: seq<Claim>, f: Filter)
    requires InOrder(cs)
    ensures InOrder(Filtered(cs, f))
  {
    hide NotAfter;
    if cs != [] {
      var n := |cs| - 1;
      FilteredInOrder(cs[..n], f);
      FilteredMembers(cs[..n], f);
      var earlier := Filtered(cs[..n], f);
      forall i | 0 <= i < |earlier| ensures NotAfter(earlier[i], cs[n]) {
        assert earlier[i] in earlier;
        var k :| 0 <= k < n && cs[..n][k] == earlier[i];
      }
    }
  }

  function SortKeys(cs: seq<Claim>): (r: seq<seq<string>>)
    ensures |r| == |cs| && forall i :: 0 <= i < |cs| ==> r[i] == SortKey(cs[i])
  {
    seq(|cs|, i requires 0 <= i < |cs| => SortKey(cs[i]))
  }

  lemma {:induction false} SortKeysPermuted(a: seq<Claim>, b: seq<Claim>)
    requires multiset(a) == multiset(b)
    ensures multiset(SortKeys(a)) == multiset(SortKeys(b))
    decreases |a|
  {
    hide SortKey;
    SameLength(a, b);
    if a != [] {
      assert a[0] in multiset(b);
      var i :| 0 <= i < |b| && b[i] == a[0];
      WithoutOne(b, i);
      WithoutFirst(a);
      SortKeysPermuted(a[1..], b[..i] + b[i + 1..]);
      WithoutOne(SortKeys(b), i);
      WithoutFirst(SortKeys(a));
      KeysTail(a);
      KeysWithout(b, i);
    }
  }

  lemma SameLength<T>(a: seq<T>, b: seq<T>)
    requires multiset(a) == multiset(b)
    ensures |a| == |b|
  {
    assert |multiset(a)| == |a| && |multiset(b)| == |b|;
  }

  lemma KeysTail(cs: seq<Claim>)
    requires cs != []
    ensures SortKeys(cs)[1..] == SortKeys(cs[1..])
  {
  }

  lemma KeysWithout(cs: seq<Claim>, i: nat)
    requires i < |cs|
    ensures SortKeys(cs)[..i] + SortKeys(cs)[i + 1..] == SortKeys(cs[..i] + cs[i + 1..])
  {
  }

  lemma WithoutOne<T>(xs: seq<T>, i: nat)
    requires i < |xs|
    ensures multiset(xs) == multiset(xs[..i] + xs[i + 1..]) + multiset{xs[i]}
    ensures multiset(xs[..i] + xs[i + 1..]) == multiset(xs) - multiset{xs[i]}
  {
    assert xs == xs[..i] + [xs[i]] + xs[i + 1..];
  }

  lemma WithoutFirst<T>(xs: seq<T>)
    requires xs != []
    ensures multiset(xs) == multiset(xs[1..]) + multiset{xs[0]}
    ensures multiset(xs[1..]) == multiset(xs) - multiset{xs[0]}
  {
    assert xs == [xs[0]] + xs[1..];
  }

  predicate KeysInOrder(ks: seq<seq<string>>) {
    && (forall i :: 0 <= i < |ks| ==> |ks[i]| == 4)
    && (forall i, j :: 0 <= i < j < |ks| ==> AtMost(ks[i], ks[j]))
  }

  lemma {:induction false} OrderedKeysUnique(a: seq<seq<string>>, b: seq<seq<string>>)
    requires KeysInOrder(a) && KeysInOrder(b) && multiset(a) == multiset(b)
    ensures a == b
  {
    hide KeysInOrder;
    SameLength(a, b);
    if a != [] {
      FirstInOther(a, b);
      FirstInOther(b, a);
      FirstSame(a, b);
      WithoutFirst(a);
      WithoutFirst(b);
      TailInOrder(a);
      TailInOrder(b);
      OrderedKeysUnique(a[1..], b[1..]);
      SameFirstAndTail(a, b);
    }
  }

  lemma FirstInOther<T>(a: seq<T>, b: seq<T>)
    requires a != [] && multiset(a) == multiset(b)
    ensures a[0] in b
  {
    assert a[0] in multiset(b);
  }

  lemma TailInOrder(a: seq<seq<string>>)
    requires KeysInOrder(a) && a != []
    ensures KeysInOrder(a[1..])
  {
    hide AtMost;
  }

  lemma SameFirstAndTail<T>(a: seq<T>, b: seq<T>)
    requires a != [] && b != [] && a[0] == b[0] && a[1..] == b[1..]
    ensures a == b
  {
    assert a == [a[0]] + a[1..] && b == [b[0]] + b[1..];
  }

  lemma FirstSame(a: seq<seq<string>>, b: seq<seq<string>>)
    requires KeysInOrder(a) && KeysInOrder(b) && a != [] && b != [] && a[0] in b && b[0] in a
    ensures a[0] == b[0]
  {
    hide AtMost;
    var i :| 0 <= i < |b| && b[i] == a[0];
    var j :| 0 <= j < |a| && a[j] == b[0];
    AtMostSelf(a[0]);
    AtMostTotal(a[0], b[0]);
  }

  lemma AtMostSelf(a: seq<string>)
    ensures AtMost(a, a)
  {
    AtMostTotal(a, a);
  }

  /** Sorted lists of the same claims agree claim by claim in all that is compared. */
  lemma SortedAlike(a: seq<Claim>, b: seq<Claim>)
    requires InOrder(a) && InOrder(b) && multiset(a) == multiset(b)
    ensures SortKeys(a) == SortKeys(b)
  {
    hide AtMost;
    SortKeysPermuted(a, b);
    forall i, j | 0 <= i < j < |a| ensures AtMost(SortKeys(a)[i], SortKeys(a)[j]) { assert NotAfter(a[i], a[j]); }
    forall i, j | 0 <= i < j < |b| ensures AtMost(SortKeys(b)[i], SortKeys(b)[j]) { assert NotAfter(b[i], b[j]); }
    OrderedKeysUnique(SortKeys(a), SortKeys(b));
  }

  predicate AllSame(cs: seq<Claim>) {
    forall i :: 0 <= i < |cs| ==> cs[i].value == cs[0].value
  }

  function RulesFor(rules: seq<Rule>, key: string): seq<Rule> {
    if rules == [] then []
    else
      var earlier := RulesFor(rules[..|rules| - 1], key);
      if rules[|rules| - 1].key == key then earlier + [rules[|rules| - 1]] else earlier
  }

  function Owners(cs: seq<Claim>): set<string> { set c | c in cs :: c.owner }

  function Sources(cs: seq<Claim>): set<string> { set c | c in cs :: c.sourceRef }

  function KeysOf(cs: seq<Claim>): set<string> { set c | c in cs :: c.key }

  /** `conflictMetadata`. */
  ghost function ConflictOf(key: string, reason: Reason, group: seq<Claim>): Conflict {
    Conflict.Conflict(key, reason, SortSet(Owners(group)), SortSet(Sources(group)))
  }

  /** What is decided about one key. */
  datatype Decision =
    | Agreed(claims: seq<Claim>)
    | Decided(claims: seq<Claim>, resolution: Resolution)
    | Undecided(conflict: Conflict)

  ghost function Decide(key: string, group: seq<Claim>, rules: seq<Rule>): Decision {
    if AllSame(group) then Agreed(group)
    else
      var applicable := RulesFor(rules, key);
      if |applicable| != 1 then
        Undecided(ConflictOf(key, if |applicable| == 0 then NoApplicableAuthority else AmbiguousAuthorityRule, group))
      else
        var rule := applicable[0];
        var authoritative := Filtered(group, OfAuthority(rule.owner, rule.kind));
        if authoritative == [] then Undecided(ConflictOf(key, AuthoritativeSourceMissing, group))
        else if !AllSame(authoritative) then Undecided(ConflictOf(key, AuthoritativeDisagreement, group))
        else
          Decided(authoritative,
                  Resolution(key, rule.owner, authoritative[0].sourceRef,
                             SortSet(Sources(Filtered(group, OfOthers(rule.owner, rule.kind))))))
  }

  function GroupOf(cs: seq<Claim>, key: string): seq<Claim> { SortClaims(Filtered(cs, OfKey(key))) }

  datatype Tally = Tally(accepted: seq<Claim>, resolutions: seq<Resolution>, conflicts: seq<Conflict>)

  function Counted(t: Tally, d: Decision): Tally {
    match d
    case Agreed(claims) => t.(accepted := t.accepted + claims)
    case Decided(claims, resolution) => t.(accepted := t.accepted + claims, resolutions := t.resolutions + [resolution])
    case Undecided(conflict) => t.(conflicts := t.conflicts + [conflict])
  }

  /** The loop over the keys. */
  ghost function TallyOf(cs: seq<Claim>, rules: seq<Rule>, keys: seq<string>): Tally {
    if keys == [] then Tally([], [], [])
    else
      var key := keys[|keys| - 1];
      Counted(TallyOf(cs, rules, keys[..|keys| - 1]), Decide(key, GroupOf(cs, key), rules))
  }

  function Outcome(t: Tally): Reconciliation {
    if t.conflicts != [] then Required(t.conflicts) else Accepted(SortClaims(t.accepted), t.resolutions)
  }

  ghost function Reconcile(cs: seq<Claim>, rules: seq<Rule>): Reconciliation {
    Outcome(TallyOf(cs, rules, SortSet(KeysOf(cs))))
  }

  ghost predicate SameMembers(a: seq<Claim>, b: seq<Claim>) { multiset(a) == multiset(b) }

  lemma SameElements(a: seq<Claim>, b: seq<Claim>)
    requires SameMembers(a, b)
    ensures (forall c :: c in a <==> c in b) && |a| == |b|
    ensures Owners(a) == Owners(b) && Sources(a) == Sources(b) && KeysOf(a) == KeysOf(b)
  {
    SameLength(a, b);
    forall c ensures c in a <==> c in b {
      assert c in multiset(a) <==> c in multiset(b);
    }
  }

  lemma AllSameMembers(a: seq<Claim>, b: seq<Claim>)
    requires SameMembers(a, b) && AllSame(a)
    ensures AllSame(b)
  {
    SameElements(a, b);
    forall i | 0 <= i < |b| ensures b[i].value == b[0].value {
      assert b[i] in a && b[0] in a;
    }
  }

  /** Two decisions that differ at most in the order of ties among the accepted claims. */
  ghost predicate SameDecision(d: Decision, e: Decision) {
    match d
    case Agreed(claims) => e.Agreed? && SameMembers(claims, e.claims)
    case Decided(claims, resolution) => e.Decided? && SameMembers(claims, e.claims) && e.resolution == resolution
    case Undecided(_) => e == d
  }

  lemma DecideAlike(key: string, a: seq<Claim>, b: seq<Claim>, rules: seq<Rule>)
    requires InOrder(a) && InOrder(b) && SameMembers(a, b)
    ensures SameDecision(Decide(key, a, rules), Decide(key, b, rules))
  {
    hide AllSame;
    hide InOrder;
    hide SameMembers;
    hide Owners;
    hide Sources;
    hide RulesFor;
    hide Filtered;
    SameElements(a, b);
    AllSameAlike(a, b);
    var applicable := RulesFor(rules, key);
    if |applicable| == 1 {
      AuthorityAlike(a, b, applicable[0]);
    }
  }

  lemma AllSameAlike(a: seq<Claim>, b: seq<Claim>)
    requires SameMembers(a, b)
    ensures AllSame(a) <==> AllSame(b)
  {
    hide AllSame;
    if AllSame(a) { AllSameMembers(a, b); }
    if AllSame(b) { AllSameMembers(b, a); }
  }

  /** The claims of the authority, and those it supersedes. */
  lemma AuthorityAlike(a: seq<Claim>, b: seq<Claim>, rule: Rule)
    requires InOrder(a) && InOrder(b) && SameMembers(a, b)
    ensures var mine, others := OfAuthority(rule.owner, rule.kind), OfOthers(rule.owner, rule.kind);
      && SameMembers(Filtered(a, mine), Filtered(b, mine)) && |Filtered(a, mine)| == |Filtered(b, mine)|
      && (AllSame(Filtered(a, mine)) <==> AllSame(Filtered(b, mine)))
      && (Filtered(a, mine) != [] ==> Filtered(a, mine)[0].sourceRef == Filtered(b, mine)[0].sourceRef)
      && Sources(Filtered(a, others)) == Sources(Filtered(b, others))
  {
    hide AllSame;
    hide InOrder;
    hide SameMembers;
    hide Sources;
    hide Filtered;
    var mine, others := OfAuthority(rule.owner, rule.kind), OfOthers(rule.owner, rule.kind);
    FilteredAlike(a, b, mine);
    FilteredAlike(a, b, others);
    FilteredInOrder(a, mine);
    FilteredInOrder(b, mine);
    SameElements(Filtered(a, mine), Filtered(b, mine));
    SameElements(Filtered(a, others), Filtered(b, others));
    AllSameAlike(Filtered(a, mine), Filtered(b, mine));
    if |Filtered(a, mine)| > 0 { FirstAlike(Filtered(a, mine), Filtered(b, mine)); }
  }

  lemma FilteredAlike(a: seq<Claim>, b: seq<Claim>, f: Filter)
    requires SameMembers(a, b)
    ensures SameMembers(Filtered(a, f), Filtered(b, f))
  {
    FilteredPermuted(a, b, f);
  }

  lemma FirstAlike(a: seq<Claim>, b: seq<Claim>)
    requires InOrder(a) && InOrder(b) && SameMembers(a, b) && a != [] && b != []
    ensures a[0].sourceRef == b[0].sourceRef
  {
    SortedAlike(a, b);
    assert SortKeys(a)[0] == SortKeys(b)[0];
    assert SortKey(a[0])[2] == SortKey(b[0])[2];
  }

  ghost predicate SameTally(t: Tally, u: Tally) {
    SameMembers(t.accepted, u.accepted) && t.resolutions == u.resolutions && t.conflicts == u.conflicts
  }

  lemma {:induction false} TallyAlike(a: seq<Claim>, b: seq<Claim>, rules: seq<Rule>, keys: seq<string>)
    requires SameMembers(a, b)
    ensures SameTally(TallyOf(a, rules, keys), TallyOf(b, rules, keys))
  {
    hide Decide;
    hide GroupOf;
    hide NotAfter;
    if keys != [] {
      var key := keys[|keys| - 1];
      TallyAlike(a, b, rules, keys[..|keys| - 1]);
      GroupAlike(a, b, key);
      DecideAlike(key, GroupOf(a, key), GroupOf(b, key), rules);
    }
  }

  lemma GroupAlike(a: seq<Claim>, b: seq<Claim>, key: string)
    requires SameMembers(a, b)
    ensures InOrder(GroupOf(a, key)) && InOrder(GroupOf(b, key)) && SameMembers(GroupOf(a, key), GroupOf(b, key))
  {
    hide InOrder;
    FilteredPermuted(a, b, OfKey(key));
  }

  /** The result does not depend on the order of the input: the outcome, the conflicts and the
      resolutions are the same, and so are the accepted claims, up to the order of claims that the
      comparison does not tell apart. */
  lemma OrderIrrelevant(a: seq<Claim>, b: seq<Claim>, rules: seq<Rule>)
    requires multiset(a) == multiset(b)
    ensures match Reconcile(a, rules)
      case Required(conflicts) => Reconcile(b, rules) == Required(conflicts)
      case Accepted(claims, resolutions) =>
        var other := Reconcile(b, rules);
        && other.Accepted? && other.resolutions == resolutions
        && multiset(other.claims) == multiset(claims) && SortKeys(other.claims) == SortKeys(claims)
  {
    hide TallyOf;
    hide InOrder;
    SameElements(a, b);
    var keys := SortSet(KeysOf(a));
    TallyAlike(a, b, rules, keys);
    SortedAlike(SortClaims(TallyOf(a, rules, keys).accepted), SortClaims(TallyOf(b, rules, keys).accepted));
  }

  /** What an accepted key contributes. */
  ghost predicate Covers(accepted: seq<Claim>, cs: seq<Claim>, keys: seq<string>) {
    && (forall c :: c in accepted ==> c in cs && c.key in keys)
    && (forall k :: k in keys ==> exists c :: c in accepted && c.key == k)
    && (forall c, d :: c in accepted && d in accepted && c.key == d.key ==> c.value == d.value)
  }

  lemma GroupMembers(cs: seq<Claim>, key: string)
    ensures forall c :: c in GroupOf(cs, key) <==> c in cs && c.key == key
    ensures key in KeysOf(cs) ==> GroupOf(cs, key) != []
  {
    hide InOrder;
    var group, found := GroupOf(cs, key), Filtered(cs, OfKey(key));
    FilteredMembers(cs, OfKey(key));
    SameElements(group, found);
    if key in KeysOf(cs) {
      var c :| c in cs && c.key == key;
      assert c in group;
    }
  }

  lemma DecidedFrom(key: string, group: seq<Claim>, rules: seq<Rule>)
    requires group != [] && !Decide(key, group, rules).Undecided?
    ensures var claims := Decide(key, group, rules).claims;
      claims != [] && (forall c :: c in claims ==> c in group) && AllSame(claims)
  {
    var applicable := RulesFor(rules, key);
    if !AllSame(group) { FilteredMembers(group, OfAuthority(applicable[0].owner, applicable[0].kind)); }
  }

  lemma DecidedClaims(cs: seq<Claim>, key: string, rules: seq<Rule>)
    requires key in KeysOf(cs) && !Decide(key, GroupOf(cs, key), rules).Undecided?
    ensures var claims := Decide(key, GroupOf(cs, key), rules).claims;
      && claims != [] && (forall c :: c in claims ==> c in cs && c.key == key)
      && (forall c, d :: c in claims && d in claims ==> c.value == d.value)
  {
    hide Decide;
    hide GroupOf;
    GroupMembers(cs, key);
    DecidedFrom(key, GroupOf(cs, key), rules);
    OneValue(Decide(key, GroupOf(cs, key), rules).claims);
  }

  lemma OneValue(cs: seq<Claim>)
    requires AllSame(cs)
    ensures forall c, d :: c in cs && d in cs ==> c.value == d.value
  {
  }

  lemma {:induction false} TallyCovers(cs: seq<Claim>, rules: seq<Rule>, keys: seq<string>)
    requires (forall k :: k in keys ==> k in KeysOf(cs)) && Distinct(keys)
    requires TallyOf(cs, rules, keys).conflicts == []
    ensures Covers(TallyOf(cs, rules, keys).accepted, cs, keys)
  {
    hide Decide;
    hide GroupOf;
    if keys != [] {
      var n := |keys| - 1;
      var key, d := keys[n], Decide(keys[n], GroupOf(cs, keys[n]), rules);
      TallyCovers(cs, rules, keys[..n]);
      assert keys == keys[..n] + [key] && key !in keys[..n];
      DecidedClaims(cs, key, rules);
      CoversMore(TallyOf(cs, rules, keys[..n]).accepted, d.claims, cs, keys[..n], key);
    }
  }

  lemma CoversMore(accepted: seq<Claim>, claims: seq<Claim>, cs: seq<Claim>, keys: seq<string>, key: string)
    requires Covers(accepted, cs, keys) && key !in keys && claims != []
    requires forall c :: c in claims ==> c in cs && c.key == key
    requires forall c, d :: c in claims && d in claims ==> c.value == d.value
    ensures Covers(accepted + claims, cs, keys + [key])
  {
    var all := accepted + claims;
    forall k | k in keys + [key] ensures exists c :: c in all && c.key == k {
      if k == key {
        assert claims[0] in all && claims[0].key == k;
      } else {
        var c :| c in accepted && c.key == k;
        assert c in all;
      }
    }
  }

  /** An accepted result covers exactly the keys of the input, with one value per key, and every
      accepted claim was in the input. */
  lemma AcceptedCovers(cs: seq<Claim>, rules: seq<Rule>)
    requires Reconcile(cs, rules).Accepted?
    ensures var accepted := Reconcile(cs, rules).claims;
      && (forall c :: c in accepted ==> c in cs)
      && KeysOf(accepted) == KeysOf(cs)
      && (forall c, d :: c in accepted && d in accepted && c.key == d.key ==> c.value == d.value)
  {
    hide TallyOf;
    hide InOrder;
    var keys := SortSet(KeysOf(cs));
    AscendingDistinct(keys);
    assert forall k :: k in keys <==> k in Elements(keys);
    TallyCovers(cs, rules, keys);
    var tally := TallyOf(cs, rules, keys).accepted;
    var accepted := Reconcile(cs, rules).claims;
    SameElements(accepted, tally);
    forall k ensures k in KeysOf(accepted) <==> k in KeysOf(cs) {
      if k in KeysOf(cs) {
        var c :| c in tally && c.key == k;
        assert c in accepted;
      }
    }
  }

  /** The claims of each key, key after key. */
  function Grouped(cs: seq<Claim>, keys: seq<string>): seq<Claim> {
    if keys == [] then [] else Grouped(cs, keys[..|keys| - 1]) + Filtered(cs, OfKey(keys[|keys| - 1]))
  }

  lemma {:induction false} GroupedOther(cs: seq<Claim>, c: Claim, keys: seq<string>)
    requires c.key !in keys
    ensures Grouped(cs + [c], keys) == Grouped(cs, keys)
  {
    if keys != [] {
      GroupedOther(cs, c, keys[..|keys| - 1]);
      assert (cs + [c])[..|cs|] == cs;
    }
  }

  /** Claims in order, taken key by key, are the claims in order. */
  lemma {:induction false} GroupedInOrder(cs: seq<Claim>)
    requires InOrder(cs)
    ensures Grouped(cs, SortSet(KeysOf(cs))) == cs
  {
    hide NotAfter;
    if cs == [] {
      assert Elements(SortSet(KeysOf(cs))) == {};
      assert forall i :: 0 <= i < |SortSet(KeysOf(cs))| ==> SortSet(KeysOf(cs))[i] in Elements(SortSet(KeysOf(cs)));
    } else {
      var n := |cs| - 1;
      var before, c := cs[..n], cs[n];
      InOrderPrefix(cs, n);
      GroupedInOrder(before);
      Snoc(cs);
      GroupedOneMore(before, c);
    }
  }

  lemma InOrderPrefix(cs: seq<Claim>, n: nat)
    requires InOrder(cs) && n <= |cs|
    ensures InOrder(cs[..n])
  {
    hide NotAfter;
  }

  lemma Snoc<T>(xs: seq<T>)
    requires xs != []
    ensures xs[..|xs| - 1] + [xs[|xs| - 1]] == xs
  {
  }

  lemma GroupedOneMore(before: seq<Claim>, c: Claim)
    requires InOrder(before + [c]) && Grouped(before, SortSet(KeysOf(before))) == before
    ensures Grouped(before + [c], SortSet(KeysOf(before + [c]))) == before + [c]
  {
    hide InOrder;
    hide KeysOf;
    hide Filtered;
    LastKey(before, c);
    var keys := SortSet(KeysOf(before + [c]));
    var k := |keys| - 1;
    GroupedOther(before, c, keys[..k]);
    FilteredSnoc(before, c);
    if c.key in KeysOf(before) {
      Regroup(Grouped(before, keys[..k]), Filtered(before, OfKey(c.key)), [c]);
    } else {
      NoneOfKey(before, c.key);
      assert keys[..k] == SortSet(KeysOf(before));
      assert [] + [c] == [c];
    }
  }

  lemma FilteredSnoc(cs: seq<Claim>, c: Claim)
    ensures Filtered(cs + [c], OfKey(c.key)) == Filtered(cs, OfKey(c.key)) + [c]
  {
    assert (cs + [c])[..|cs|] == cs;
  }

  lemma {:induction false} NoneOfKey(cs: seq<Claim>, key: string)
    requires key !in KeysOf(cs)
    ensures Filtered(cs, OfKey(key)) == []
  {
    if cs != [] {
      var n := |cs| - 1;
      assert cs[n].key in KeysOf(cs);
      NoneOfKey(cs[..n], key);
    }
  }

  /** The last of claims in order has the last key. */
  lemma LastKey(before: seq<Claim>, c: Claim)
    requires InOrder(before + [c])
    ensures var keys := SortSet(KeysOf(before + [c]));
      && keys != [] && keys[|keys| - 1] == c.key && c.key !in keys[..|keys| - 1]
      && (if c.key in KeysOf(before) then keys == SortSet(KeysOf(before))
        else keys == SortSet(KeysOf(before)) + [c.key])
  {
    hide NotAfter;
    hide Below;
    hide Ascending;
    var all := before + [c];
    assert KeysOf(all) == KeysOf(before) + {c.key} by {
      assert forall x :: x in all <==> x in before || x == c;
    }
    forall k | k in KeysOf(all) ensures Below(k, c.key) {
      var d :| d in all && d.key == k;
      var j :| 0 <= j < |all| && all[j] == d;
      assert all[|before|] == c;
      if j < |before| { KeyBelow(d, c); } else { BelowTotal(k, k); }
    }
    LargestLast(KeysOf(all), c.key);
    if c.key in KeysOf(before) {
      assert KeysOf(all) == KeysOf(before);
    } else {
      LargestAdded(KeysOf(before), c.key);
    }
  }

  /** The largest of a set of texts comes last, and once. */
  lemma LargestLast(s: set<string>, x: string)
    requires x in s && forall k :: k in s ==> Below(k, x)
    ensures var keys := SortSet(s); keys != [] && keys[|keys| - 1] == x && x !in keys[..|keys| - 1]
  {
    hide Below;
    var keys := SortSet(s);
    assert x in Elements(keys);
    var i :| 0 <= i < |keys| && keys[i] == x;
    var n := |keys| - 1;
    assert keys[n] in Elements(keys);
    assert i < n ==> Below(keys[i], keys[n]) && keys[i] != keys[n];
    BelowTotal(keys[i], keys[n]);
  }

  lemma LargestAdded(s: set<string>, x: string)
    requires x !in s && forall k :: k in s + {x} ==> Below(k, x)
    ensures SortSet(s + {x}) == SortSet(s) + [x]
  {
    hide Below;
    var earlier := SortSet(s);
    var longer := earlier + [x];
    assert forall y :: y in longer <==> y in earlier || y == x;
    assert forall y :: y in earlier <==> y in Elements(earlier);
    assert Elements(longer) == s + {x};
    forall a, b | 0 <= a < b < |longer| ensures Below(longer[a], longer[b]) && longer[a] != longer[b] {
      assert longer[a] in Elements(earlier);
    }
    AscendingUnique(longer, SortSet(s + {x}));
  }

  lemma KeyBelow(c: Claim, d: Claim)
    requires NotAfter(c, d)
    ensures Below(c.key, d.key)
  {
    BelowTotal(c.key, c.key);
    assert SortKey(c)[0] == c.key && SortKey(d)[0] == d.key;
  }

  /** When every key is agreed already, the tally is the grouped claims and nothing else. */
  lemma {:induction false} AgreedTally(cs: seq<Claim>, rules: seq<Rule>, keys: seq<string>)
    requires InOrder(cs) && forall c, d :: c in cs && d in cs && c.key == d.key ==> c.value == d.value
    ensures TallyOf(cs, rules, keys) == Tally(Grouped(cs, keys), [], [])
  {
    hide InOrder;
    if keys != [] {
      var key := keys[|keys| - 1];
      AgreedTally(cs, rules, keys[..|keys| - 1]);
      FilteredInOrder(cs, OfKey(key));
      SortInOrder(Filtered(cs, OfKey(key)));
      FilteredMembers(cs, OfKey(key));
      var group := GroupOf(cs, key);
      assert forall i :: 0 <= i < |group| ==> group[i] in group;
      assert AllSame(group);
    }
  }

  /** Reconciling again: the accepted claims, under whatever rules, come back unchanged and
      without a resolution. */
  lemma ReconcileIdempotent(cs: seq<Claim>, rules: seq<Rule>, others: seq<Rule>)
    requires Reconcile(cs, rules).Accepted?
    ensures Reconcile(Reconcile(cs, rules).claims, others) == Accepted(Reconcile(cs, rules).claims, [])
  {
    hide TallyOf;
    hide InOrder;
    hide KeysOf;
    var accepted := Reconcile(cs, rules).claims;
    AcceptedCovers(cs, rules);
    AgreedTally(accepted, others, SortSet(KeysOf(accepted)));
    GroupedInOrder(accepted);
    SortInOrder(accepted);
  }

  method Metadata(key: string, reason: Reason, group: seq<Claim>) returns (c: Conflict)
    ensures c == ConflictOf(key, reason, group)
  {
    var owners := SortedUnique(seq(|group|, i requires 0 <= i < |group| => group[i].owner));
    var sources := SortedUnique(seq(|group|, i requires 0 <= i < |group| => group[i].sourceRef));
    ListedTexts(group);
    c := Conflict.Conflict(key, reason, owners, sources);
  }

  lemma ListedTexts(cs: seq<Claim>)
    ensures Elements(seq(|cs|, i requires 0 <= i < |cs| => cs[i].owner)) == Owners(cs)
    ensures Elements(seq(|cs|, i requires 0 <= i < |cs| => cs[i].sourceRef)) == Sources(cs)
    ensures Elements(seq(|cs|, i requires 0 <= i < |cs| => cs[i].key)) == KeysOf(cs)
  {
    var owners, sources, keys := seq(|cs|, i requires 0 <= i < |cs| => cs[i].owner),
      seq(|cs|, i requires 0 <= i < |cs| => cs[i].sourceRef), seq(|cs|, i requires 0 <= i < |cs| => cs[i].key);
    forall x ensures (x in owners <==> x in Owners(cs)) && (x in sources <==> x in Sources(cs))
      && (x in keys <==> x in KeysOf(cs)) {
      if x in Owners(cs) {
        var c :| c in cs && c.owner == x;
        var i :| 0 <= i < |cs| && cs[i] == c;
        assert owners[i] == x;
      }
      if x in Sources(cs) {
        var c :| c in cs && c.sourceRef == x;
        var i :| 0 <= i < |cs| && cs[i] == c;
        assert sources[i] == x;
      }
      if x in KeysOf(cs) {
        var c :| c in cs && c.key == x;
        var i :| 0 <= i < |cs| && cs[i] == c;
        assert keys[i] == x;
      }
    }
  }

  /** The body of the loop over the keys. */
  method DecideKey(key: string, group: seq<Claim>, rules: seq<Rule>) returns (d: Decision)
    ensures d == Decide(key, group, rules)
  {
    var same := EveryValue(group);
    if same {
      return Agreed(group);
    }
    var applicable := RulesFor(rules, key);
    if |applicable| != 1 {
      var conflict := Metadata(key, if |applicable| == 0 then NoApplicableAuthority else AmbiguousAuthorityRule, group);
      return Undecided(conflict);
    }
    var rule := applicable[0];
    var authoritative := Filtered(group, OfAuthority(rule.owner, rule.kind));
    if authoritative == [] {
      var conflict := Metadata(key, AuthoritativeSourceMissing, group);
      return Undecided(conflict);
    }
    same := EveryValue(authoritative);
    if !same {
      var conflict := Metadata(key, AuthoritativeDisagreement, group);
      return Undecided(conflict);
    }
    var others := Filtered(group, OfOthers(rule.owner, rule.kind));
    ListedTexts(others);
    var superseded := SortedUnique(seq(|others|, i requires 0 <= i < |others| => others[i].sourceRef));
    d := Decided(authoritative, Resolution(key, rule.owner, authoritative[0].sourceRef, superseded));
  }

  method EveryValue(cs: seq<Claim>) returns (same: bool)
    ensures same <==> AllSame(cs)
  {
    for i := 0 to |cs|
      invariant forall k :: 0 <= k < i ==> cs[k].value == cs[0].value
    {
      if cs[i].value != cs[0].value {
        return false;
      }
    }
    same := true;
  }

  /** `reconcileTruthClaims`: group by key, decide key by key in order, and accept if no conflict
      is left.  Its last sort, of the resolutions by key, finds them in order already. */
  method ReconcileTruthClaims(cs: seq<Claim>, rules: seq<Rule>) returns (r: Reconciliation)
    ensures r == Reconcile(cs, rules)
  {
    hide Decide;
    hide InOrder;
    hide SortClaims;
    hide NotAfter;
    hide Filtered;
    hide SortSet;
    hide Sort;
    var byKey := GroupByKey(cs);
    ListedTexts(cs);
    var keys := SortedUnique(seq(|cs|, i requires 0 <= i < |cs| => cs[i].key));
    assert forall k :: k in keys <==> k in Elements(keys);
    var tally := Tally([], [], []);
    for n := 0 to |keys|
      invariant tally == TallyOf(cs, rules, keys[..n])
    {
      assert keys[..n + 1][..n] == keys[..n];
      assert keys[n] in Elements(keys);
      var group := SortClaims(byKey[keys[n]]);
      var d := DecideKey(keys[n], group, rules);
      tally := Counted(tally, d);
    }
    assert keys[..|keys|] == keys;
    if tally.conflicts != [] {
      return Required(tally.conflicts);
    }
    r := Accepted(SortClaims(tally.accepted), tally.resolutions);
  }

  /** The map from keys to the claims made about them. */
  method GroupByKey(cs: seq<Claim>) returns (byKey: map<string, seq<Claim>>)
    ensures byKey.Keys == KeysOf(cs)
    ensures forall k :: k in byKey ==> byKey[k] == Filtered(cs, OfKey(k))
  {
    byKey := map[];
    for i := 0 to |cs|
      invariant byKey.Keys == KeysOf(cs[..i])
      invariant forall k :: k in byKey ==> byKey[k] == Filtered(cs[..i], OfKey(k))
    {
      var c := cs[i];
      assert cs[..i + 1] == cs[..i] + [c];
      KeysSnoc(cs[..i], c);
      if c.key !in byKey {
        NoneOfKey(cs[..i], c.key);
      }
      var group := if c.key in byKey then byKey[c.key] else [];
      byKey := byKey[c.key := group + [c]];
    }
    assert cs[..|cs|] == cs;
  }

  lemma KeysSnoc(cs: seq<Claim>, c: Claim)
    ensures KeysOf(cs + [c]) == KeysOf(cs) + {c.key}
    ensures forall k ::
      Filtered(cs + [c], OfKey(k)) == if k == c.key then Filtered(cs, OfKey(k)) + [c] else Filtered(cs, OfKey(k))
  {
    assert (cs + [c])[..|cs|] == cs;
    assert forall x :: x in cs + [c] <==> x in cs || x == c;
  }

  /** Resolutions of some of the keys, in the ascending order of their keys. */
  ghost predicate ResolvedInOrder(rs: seq<Resolution>, keys: seq<string>) {
    && (forall i :: 0 <= i < |rs| ==> rs[i].key in keys)
    && (forall i, j :: 0 <= i < j < |rs| ==> Below(rs[i].key, rs[j].key) && rs[i].key != rs[j].key)
  }

  /** The resolutions come out in the ascending order of their keys. */
  lemma {:induction false} ResolutionsInOrder(cs: seq<Claim>, rules: seq<Rule>, keys: seq<string>)
    requires Ascending(keys)
    ensures ResolvedInOrder(TallyOf(cs, rules, keys).resolutions, keys)
  {
    hide Below;
    hide Decide;
    hide ResolvedInOrder;
    hide GroupOf;
    hide NotAfter;
    if keys == [] {
      NothingResolved();
    } else {
      var n := |keys| - 1;
      ResolutionsInOrder(cs, rules, keys[..n]);
      var d := Decide(keys[n], GroupOf(cs, keys[n]), rules);
      DecisionKey(keys[n], GroupOf(cs, keys[n]), rules);
      var earlier := TallyOf(cs, rules, keys[..n]).resolutions;
      ResolvedMore(earlier, keys, if d.Decided? then [d.resolution] else []);
      assert earlier + [] == earlier;
    }
  }

  lemma NothingResolved()
    ensures ResolvedInOrder([], [])
  {
  }

  lemma ResolvedMore(rs: seq<Resolution>, keys: seq<string>, more: seq<Resolution>)
    requires Ascending(keys) && keys != [] && ResolvedInOrder(rs, keys[..|keys| - 1])
    requires |more| <= 1 && forall i :: 0 <= i < |more| ==> more[i].key == keys[|keys| - 1]
    ensures ResolvedInOrder(rs + more, keys)
  {
    hide Below;
    var n, all := |keys| - 1, rs + more;
    forall i | 0 <= i < |rs| ensures rs[i].key in keys && Below(rs[i].key, keys[n]) && rs[i].key != keys[n] {
      assert rs[i].key in keys[..n];
      LastLargest(keys, rs[i].key);
    }
  }

  lemma LastLargest(keys: seq<string>, key: string)
    requires Ascending(keys) && keys != [] && key in keys[..|keys| - 1]
    ensures Below(key, keys[|keys| - 1]) && key != keys[|keys| - 1] && key in keys
  {
  }

  lemma DecisionKey(key: string, group: seq<Claim>, rules: seq<Rule>)
    ensures Decide(key, group, rules).Decided? ==> Decide(key, group, rules).resolution.key == key
  {
  }
}
