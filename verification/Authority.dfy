/** What `reconcileTruthClaims` decides about a key, said of the claims and the rules handed in. */
module Authority {
  import opened Base
  import opened Ordering
  import opened Truth

  /** The claims about the key have two values. */
  ghost predicate Disputed(cs: seq<Claim>, k: string) {
    exists c, d :: c in cs && d in cs && c.key == k && d.key == k && c.value != d.value
  }

  ghost predicate OnlyRule(rules: seq<Rule>, k: string, i: int) {
    && 0 <= i < |rules| && rules[i].key == k
    && forall n :: 0 <= n < |rules| && rules[n].key == k ==> n == i
  }

  lemma {:induction false} RulesFound(rules: seq<Rule>, k: string)
    ensures var found := RulesFor(rules, k);
      && (found == [] ==> forall i :: 0 <= i < |rules| ==> rules[i].key != k)
      && (|found| == 1 ==> exists i :: OnlyRule(rules, k, i) && rules[i] == found[0])
      && (|found| > 1 ==> exists i, n :: 0 <= i < n < |rules| && rules[i].key == k && rules[n].key == k)
  {
    if rules != [] {
      var n := |rules| - 1;
      var rest := rules[..n];
      RulesFound(rest, k);
      if |RulesFor(rest, k)| == 1 {
        var i :| OnlyRule(rest, k, i) && rest[i] == RulesFor(rest, k)[0];
        assert rules[i] == rest[i];
        if rules[n].key != k { assert OnlyRule(rules, k, i); }
      } else if RulesFor(rest, k) == [] {
        assert forall i :: 0 <= i < n ==> rules[i] == rest[i];
        if rules[n].key == k { assert OnlyRule(rules, k, n); }
      } else {
        var i, l :| 0 <= i < l < n && rest[i].key == k && rest[l].key == k;
        assert rules[i] == rest[i] && rules[l] == rest[l];
      }
    }
  }

  /** The three cases exclude each other. */
  lemma RulesForKey(rules: seq<Rule>, k: string)
    ensures var found := RulesFor(rules, k);
      && (found == [] <==> forall i :: 0 <= i < |rules| ==> rules[i].key != k)
      && (|found| == 1 <==> exists i :: OnlyRule(rules, k, i))
      && (|found| == 1 ==> exists i :: OnlyRule(rules, k, i) && rules[i] == found[0])
      && (|found| > 1 <==> exists i, n :: 0 <= i < n < |rules| && rules[i].key == k && rules[n].key == k)
  {
    hide RulesFor;
    RulesFound(rules, k);
  }

  lemma GroupCount(cs: seq<Claim>, k: string, c: Claim)
    ensures multiset(GroupOf(cs, k))[c] == if c.key == k then multiset(cs)[c] else 0
  {
    FilteredCount(cs, OfKey(k), c);
  }

  lemma GroupDisputed(cs: seq<Claim>, k: string)
    ensures AllSame(GroupOf(cs, k)) <==> !Disputed(cs, k)
  {
    hide GroupOf;
    GroupMembers(cs, k);
    var group := GroupOf(cs, k);
    if AllSame(group) {
      OneValue(group);
    } else {
      var i :| 0 <= i < |group| && group[i].value != group[0].value;
      assert group[i] in group && group[0] in group;
    }
  }

  /** The claims of the rule's owner and kind, and those of anyone else. */
  lemma AuthorityMembers(cs: seq<Claim>, k: string, r: Rule)
    ensures forall c ::
      multiset(Filtered(GroupOf(cs, k), OfAuthority(r.owner, r.kind)))[c]
      == if c.key == k && c.owner == r.owner && c.kind == r.kind then multiset(cs)[c] else 0
    ensures forall c :: c in Filtered(GroupOf(cs, k), OfAuthority(r.owner, r.kind)) <==>
      c in cs && c.key == k && c.owner == r.owner && c.kind == r.kind
    ensures forall c :: c in Filtered(GroupOf(cs, k), OfOthers(r.owner, r.kind)) <==>
      c in cs && c.key == k && !(c.owner == r.owner && c.kind == r.kind)
  {
    hide GroupOf;
    var group := GroupOf(cs, k);
    GroupMembers(cs, k);
    FilteredMembers(group, OfAuthority(r.owner, r.kind));
    FilteredMembers(group, OfOthers(r.owner, r.kind));
    forall c ensures multiset(Filtered(group, OfAuthority(r.owner, r.kind)))[c]
      == if c.key == k && c.owner == r.owner && c.kind == r.kind then multiset(cs)[c] else 0 {
      FilteredCount(group, OfAuthority(r.owner, r.kind), c);
      GroupCount(cs, k, c);
    }
  }

  lemma AtMostTail(a: seq<string>, b: seq<string>)
    requires a != [] && b != [] && a[0] == b[0] && AtMost(a, b)
    ensures AtMost(a[1..], b[1..])
  {
  }

  lemma SourceBelow(c: Claim, d: Claim)
    requires NotAfter(c, d) && c.key == d.key && c.owner == d.owner
    ensures Below(c.sourceRef, d.sourceRef)
  {
    AtMostTail(SortKey(c), SortKey(d));
    AtMostTail(SortKey(c)[1..], SortKey(d)[1..]);
    BelowTotal(c.sourceRef, c.sourceRef);
    assert SortKey(c)[1..][1..][0] == c.sourceRef && SortKey(d)[1..][1..][0] == d.sourceRef;
  }

  /** Of claims of one key and owner in order, the first has the least source. */
  lemma LeastSource(cs: seq<Claim>)
    requires InOrder(cs) && forall c, d :: c in cs && d in cs ==> c.key == d.key && c.owner == d.owner
    ensures forall c :: c in cs ==> Below(cs[0].sourceRef, c.sourceRef)
  {
    hide NotAfter;
    hide Below;
    forall c | c in cs ensures Below(cs[0].sourceRef, c.sourceRef) {
      var i :| 0 <= i < |cs| && cs[i] == c;
      assert cs[0] in cs;
      if i == 0 { BelowTotal(c.sourceRef, c.sourceRef); } else { SourceBelow(cs[0], c); }
    }
  }

  /** The resolution of a key by a rule: the rule's owner, the least source of the owner's claims,
      and the sources of the other claims, in order. */
  ghost predicate Resolves(cs: seq<Claim>, k: string, r: Rule, x: Resolution) {
    && x.key == k && x.owner == r.owner
    && (exists c :: c in cs && c.key == k && c.owner == r.owner && c.kind == r.kind && c.sourceRef == x.selected)
    && (forall c :: c in cs && c.key == k && c.owner == r.owner && c.kind == r.kind ==>
          Below(x.selected, c.sourceRef))
    && Ascending(x.superseded)
    && forall s :: s in x.superseded <==>
         exists c :: c in cs && c.key == k && !(c.owner == r.owner && c.kind == r.kind) && c.sourceRef == s
  }

  lemma ResolutionExact(cs: seq<Claim>, k: string, r: Rule)
    requires Filtered(GroupOf(cs, k), OfAuthority(r.owner, r.kind)) != []
    ensures Resolves(cs, k, r,
      Resolution(k, r.owner, Filtered(GroupOf(cs, k), OfAuthority(r.owner, r.kind))[0].sourceRef,
      SortSet(Sources(Filtered(GroupOf(cs, k), OfOthers(r.owner, r.kind))))))
  {
    hide GroupOf;
    hide Filtered;
    hide InOrder;
    hide Ascending;
    hide Below;
    var group := GroupOf(cs, k);
    var mine, others := Filtered(group, OfAuthority(r.owner, r.kind)), Filtered(group, OfOthers(r.owner, r.kind));
    AuthorityMembers(cs, k, r);
    GroupInOrder(cs, k);
    FilteredInOrder(group, OfAuthority(r.owner, r.kind));
    LeastSource(mine);
    assert mine[0] in mine;
    var superseded := SortSet(Sources(others));
    forall s ensures s in superseded <==>
      exists c :: c in cs && c.key == k && !(c.owner == r.owner && c.kind == r.kind) && c.sourceRef == s {
      assert s in superseded <==> s in Elements(superseded);
      if s in Sources(others) {
        var c :| c in others && c.sourceRef == s;
      }
    }
  }

  lemma GroupInOrder(cs: seq<Claim>, k: string)
    ensures InOrder(GroupOf(cs, k))
  {
  }

  /** The authority's claims disagree. */
  ghost predicate Divided(cs: seq<Claim>, k: string, r: Rule) {
    exists c, d :: c in cs && d in cs && c.value != d.value
      && c.key == k && c.owner == r.owner && c.kind == r.kind && d.key == k && d.owner == r.owner && d.kind == r.kind
  }

  ghost predicate Silent(cs: seq<Claim>, k: string, r: Rule) {
    forall c :: c in cs ==> !(c.key == k && c.owner == r.owner && c.kind == r.kind)
  }

  /** When the reason is the right one for a disputed key. */
  ghost predicate Because(cs: seq<Claim>, rules: seq<Rule>, k: string, reason: Reason) {
    match reason
    case NoApplicableAuthority => forall i :: 0 <= i < |rules| ==> rules[i].key != k
    case AmbiguousAuthorityRule => exists i, n :: 0 <= i < n < |rules| && rules[i].key == k && rules[n].key == k
    case AuthoritativeSourceMissing => exists i :: OnlyRule(rules, k, i) && Silent(cs, k, rules[i])
    case AuthoritativeDisagreement => exists i :: OnlyRule(rules, k, i) && Divided(cs, k, rules[i])
  }

  lemma DividedGroup(cs: seq<Claim>, k: string, r: Rule)
    ensures AllSame(Filtered(GroupOf(cs, k), OfAuthority(r.owner, r.kind))) <==> !Divided(cs, k, r)
    ensures Filtered(GroupOf(cs, k), OfAuthority(r.owner, r.kind)) == [] <==> Silent(cs, k, r)
  {
    hide GroupOf;
    hide Filtered;
    AuthorityMembers(cs, k, r);
    var mine := Filtered(GroupOf(cs, k), OfAuthority(r.owner, r.kind));
    if AllSame(mine) {
      OneValue(mine);
    } else {
      var i :| 0 <= i < |mine| && mine[i].value != mine[0].value;
      assert mine[i] in mine && mine[0] in mine;
    }
    if mine != [] { assert mine[0] in mine; }
  }

  /** What a decision about the key says of the input. */
  ghost predicate Right(cs: seq<Claim>, rules: seq<Rule>, k: string, d: Decision) {
    match d
    case Agreed(claims) =>
      !Disputed(cs, k) && forall c: Claim :: multiset(claims)[c] == if c.key == k then multiset(cs)[c] else 0
    case Decided(claims, x) =>
      && Disputed(cs, k) && (exists i :: OnlyRule(rules, k, i) && ByRule(cs, k, rules[i], claims, x))
      && forall c: Claim :: c.key != k ==> multiset(claims)[c] == 0
    case Undecided(conflict) => Disputed(cs, k) && Reported(cs, rules, k, conflict)
  }

  /** The claims of the rule's owner and kind were taken, all and no others, and agree. */
  ghost predicate ByRule(cs: seq<Claim>, k: string, r: Rule, claims: seq<Claim>, x: Resolution) {
    && Resolves(cs, k, r, x) && !Divided(cs, k, r)
    && forall c: Claim :: c.key == k ==>
         multiset(claims)[c] == if c.owner == r.owner && c.kind == r.kind then multiset(cs)[c] else 0
  }

  ghost predicate Reported(cs: seq<Claim>, rules: seq<Rule>, k: string, x: Conflict) {
    && x.key == k && Because(cs, rules, k, x.reason)
    && Ascending(x.owners) && Ascending(x.sourceRefs)
    && (forall o :: o in x.owners <==> exists c :: c in cs && c.key == k && c.owner == o)
    && (forall s :: s in x.sourceRefs <==> exists c :: c in cs && c.key == k && c.sourceRef == s)
  }

  lemma DecisionRight(cs: seq<Claim>, rules: seq<Rule>, k: string)
    ensures Right(cs, rules, k, Decide(k, GroupOf(cs, k), rules))
  {
    hide GroupOf;
    hide Filtered;
    hide AllSame;
    hide RulesFor;
    hide Disputed;
    hide Resolves;
    hide Divided;
    hide Silent;
    hide ConflictOf;
    hide Reported;
    GroupDisputed(cs, k);
    RulesForKey(rules, k);
    var group, found := GroupOf(cs, k), RulesFor(rules, k);
    if AllSame(group) {
      forall c: Claim ensures multiset(group)[c] == if c.key == k then multiset(cs)[c] else 0 { GroupCount(cs, k, c); }
    } else if |found| == 1 {
      var i :| OnlyRule(rules, k, i) && rules[i] == found[0];
      DividedGroup(cs, k, rules[i]);
      AuthorityMembers(cs, k, rules[i]);
      if Silent(cs, k, rules[i]) {
        ConflictRight(cs, rules, k, AuthoritativeSourceMissing);
      } else if Divided(cs, k, rules[i]) {
        ConflictRight(cs, rules, k, AuthoritativeDisagreement);
      } else {
        ResolutionExact(cs, k, rules[i]);
      }
    } else {
      ConflictRight(cs, rules, k, if |found| == 0 then NoApplicableAuthority else AmbiguousAuthorityRule);
    }
  }

  lemma ConflictRight(cs: seq<Claim>, rules: seq<Rule>, k: string, reason: Reason)
    requires Because(cs, rules, k, reason)
    ensures Reported(cs, rules, k, ConflictOf(k, reason, GroupOf(cs, k)))
  {
    hide GroupOf;
    hide Because;
    hide Ascending;
    var group := GroupOf(cs, k);
    GroupMembers(cs, k);
    var owners, sources := SortSet(Owners(group)), SortSet(Sources(group));
    forall o ensures o in owners <==> exists c :: c in cs && c.key == k && c.owner == o {
      assert o in owners <==> o in Elements(owners);
      if o in Owners(group) { var c :| c in group && c.owner == o; }
    }
    forall s ensures s in sources <==> exists c :: c in cs && c.key == k && c.sourceRef == s {
      assert s in sources <==> s in Elements(sources);
      if s in Sources(group) { var c :| c in group && c.sourceRef == s; }
    }
  }

  /** What the loop over `keys` contributed for the key `k`: the decision about it, once. */
  ghost predicate Contributed(cs: seq<Claim>, rules: seq<Rule>, keys: seq<string>, k: string) {
    var t, d := TallyOf(cs, rules, keys), Decide(k, GroupOf(cs, k), rules);
    && (forall c: Claim :: c.key == k ==>
          multiset(t.accepted)[c] == if k in keys && !d.Undecided? then multiset(d.claims)[c] else 0)
    && (forall x: Resolution :: x.key == k ==>
          (x in t.resolutions <==> k in keys && d.Decided? && x == d.resolution))
    && (forall x: Conflict :: x.key == k ==> (x in t.conflicts <==> k in keys && d.Undecided? && x == d.conflict))
  }

  lemma {:induction false} EveryKeyContributed(cs: seq<Claim>, rules: seq<Rule>, keys: seq<string>, k: string)
    requires Distinct(keys)
    ensures Contributed(cs, rules, keys, k)
  {
    hide Decide;
    hide GroupOf;
    if keys != [] {
      hide Contributed;
      var n := |keys| - 1;
      EveryKeyContributed(cs, rules, keys[..n], k);
      assert keys == keys[..n] + [keys[n]] && keys[n] !in keys[..n];
      ContributedMore(cs, rules, keys[..n], keys[n], k);
    }
  }

  lemma ContributedMore(cs: seq<Claim>, rules: seq<Rule>, rest: seq<string>, key: string, k: string)
    requires Contributed(cs, rules, rest, k) && key !in rest
    ensures Contributed(cs, rules, rest + [key], k)
  {
    hide Decide;
    hide GroupOf;
    hide KeptToKey;
    hide Counted;
    var d := Decide(key, GroupOf(cs, key), rules);
    AboutItsKey(cs, rules, key);
    assert (rest + [key])[..|rest|] == rest;
    OneMoreKey(TallyOf(cs, rules, rest), d, key, k);
  }

  lemma AboutItsKey(cs: seq<Claim>, rules: seq<Rule>, key: string)
    ensures KeptToKey(Decide(key, GroupOf(cs, key), rules), key)
  {
    hide Decide;
    hide GroupOf;
    hide Divided;
    DecisionRight(cs, rules, key);
  }

  /** A decision is about claims of its key only. */
  ghost predicate KeptToKey(d: Decision, key: string) {
    match d
    case Agreed(claims) => forall c: Claim :: c.key != key ==> multiset(claims)[c] == 0
    case Decided(claims, x) => x.key == key && forall c: Claim :: c.key != key ==> multiset(claims)[c] == 0
    case Undecided(x) => x.key == key
  }

  lemma OneMoreKey(t: Tally, d: Decision, key: string, k: string)
    requires KeptToKey(d, key)
    ensures var u := Counted(t, d);
      && (forall c: Claim :: c.key == k ==>
            multiset(u.accepted)[c] == multiset(t.accepted)[c]
              + if key == k && !d.Undecided? then multiset(d.claims)[c] else 0)
      && (forall x: Resolution :: x.key == k ==>
            (x in u.resolutions <==> x in t.resolutions || (key == k && d.Decided? && x == d.resolution)))
      && (forall x: Conflict :: x.key == k ==>
            (x in u.conflicts <==> x in t.conflicts || (key == k && d.Undecided? && x == d.conflict)))
  {
  }

  /** What the reconciliation says about one key. */
  lemma KeyReconciled(cs: seq<Claim>, rules: seq<Rule>, k: string)
    ensures Right(cs, rules, k, Decide(k, GroupOf(cs, k), rules))
    ensures Contributed(cs, rules, SortSet(KeysOf(cs)), k)
    ensures k in SortSet(KeysOf(cs)) <==> exists c :: c in cs && c.key == k
  {
    hide Decide;
    hide GroupOf;
    hide Right;
    hide Contributed;
    var keys := SortSet(KeysOf(cs));
    DecisionRight(cs, rules, k);
    AscendingDistinct(keys);
    EveryKeyContributed(cs, rules, keys, k);
    assert k in keys <==> k in Elements(keys);
  }

  /** With a conflict for a key that was decided there is no accepted result. */
  lemma NoConflictLeft(cs: seq<Claim>, rules: seq<Rule>, k: string)
    requires Reconcile(cs, rules).Accepted? && exists c :: c in cs && c.key == k
    ensures !Decide(k, GroupOf(cs, k), rules).Undecided?
  {
    hide TallyOf;
    hide GroupOf;
    hide Decide;
    hide Right;
    hide SortClaims;
    KeyReconciled(cs, rules, k);
    AboutItsKey(cs, rules, k);
  }

  /** An accepted result, key by key and said of the input alone.  A key on whose value all its claims
      agree keeps all of them, without a resolution.  A key with two values has exactly one rule;
      accepted are exactly the claims of the rule's owner and kind, as often as they were handed
      in, and its one resolution names that owner, the least of their sources, and the sources of
      the others. */
  lemma AuthorityDecides(cs: seq<Claim>, rules: seq<Rule>, k: string)
    requires Reconcile(cs, rules).Accepted?
    ensures var r := Reconcile(cs, rules);
      if Disputed(cs, k) then
        exists i, x :: OnlyRule(rules, k, i) && ByRule(cs, k, rules[i], r.claims, x)
          && (forall y :: y in r.resolutions && y.key == k <==> y == x)
      else
        (forall y :: y in r.resolutions ==> y.key != k)
          && forall c: Claim :: c.key == k ==> multiset(r.claims)[c] == multiset(cs)[c]
  {
    hide TallyOf;
    hide GroupOf;
    hide Decide;
    hide Resolves;
    hide Divided;
    hide InOrder;
    KeyReconciled(cs, rules, k);
    if exists c :: c in cs && c.key == k {
      NoConflictLeft(cs, rules, k);
      var d := Decide(k, GroupOf(cs, k), rules);
      AboutItsKey(cs, rules, k);
      if d.Decided? {
        var i :| OnlyRule(rules, k, i) && ByRule(cs, k, rules[i], d.claims, d.resolution);
        assert ByRule(cs, k, rules[i], Reconcile(cs, rules).claims, d.resolution);
      }
    } else {
      forall c: Claim | c.key == k ensures multiset(cs)[c] == 0 { assert c !in cs; }
    }
  }

  /** A decision leaves a key undecided exactly when the key is disputed for one of the reasons. */
  lemma UndecidedBecause(cs: seq<Claim>, rules: seq<Rule>, k: string, d: Decision)
    requires Right(cs, rules, k, d)
    ensures d.Undecided? <==> Disputed(cs, k) && exists reason :: Because(cs, rules, k, reason)
  {
    hide Disputed;
    hide Divided;
    if d.Decided? {
      var i :| OnlyRule(rules, k, i) && ByRule(cs, k, rules[i], d.claims, d.resolution);
      forall reason ensures !Because(cs, rules, k, reason) {
        assert forall n :: OnlyRule(rules, k, n) ==> n == i;
      }
    } else if d.Undecided? {
      assert Because(cs, rules, k, d.conflict.reason);
    }
  }

  /** There is a conflict exactly for each key with two values that no single agreeing authority
      decides, reported with the reason that holds and the owners and sources of its claims. */
  lemma ConflictsExact(cs: seq<Claim>, rules: seq<Rule>, k: string)
    ensures var t := TallyOf(cs, rules, SortSet(KeysOf(cs)));
      && ((exists x :: x in t.conflicts && x.key == k)
            <==> Disputed(cs, k) && exists reason :: Because(cs, rules, k, reason))
      && forall x :: x in t.conflicts && x.key == k ==> Reported(cs, rules, k, x)
  {
    hide TallyOf;
    hide GroupOf;
    hide Decide;
    hide Because;
    hide Resolves;
    hide Divided;
    KeyReconciled(cs, rules, k);
    var d := Decide(k, GroupOf(cs, k), rules);
    UndecidedBecause(cs, rules, k, d);
    if d.Undecided? { assert d.conflict.key == k; }
  }

  /** The reconciliation is required exactly when there is such a key, and then it reports each of
      them, once and in the order of the keys, and no other. */
  lemma RequiredExactly(cs: seq<Claim>, rules: seq<Rule>, k: string)
    ensures var r := Reconcile(cs, rules);
      && (r.Required? <==> exists key, reason :: Disputed(cs, key) && Because(cs, rules, key, reason))
      && (r.Required? ==>
            && ((exists x :: x in r.conflicts && x.key == k)
                  <==> Disputed(cs, k) && exists reason :: Because(cs, rules, k, reason))
            && (forall x :: x in r.conflicts && x.key == k ==> Reported(cs, rules, k, x))
            && ReportedInOrder(r.conflicts, SortSet(KeysOf(cs))))
  {
    hide TallyOf;
    hide Disputed;
    hide Because;
    hide Reported;
    hide SortClaims;
    hide ReportedInOrder;
    var t := TallyOf(cs, rules, SortSet(KeysOf(cs)));
    ConflictsExact(cs, rules, k);
    ConflictsInOrder(cs, rules, SortSet(KeysOf(cs)));
    if t.conflicts != [] {
      ConflictsExact(cs, rules, t.conflicts[0].key);
      assert t.conflicts[0] in t.conflicts;
    }
    forall key, reason | Disputed(cs, key) && Because(cs, rules, key, reason) ensures t.conflicts != [] {
      ConflictsExact(cs, rules, key);
    }
  }

  /** Conflicts of some of the keys, in the ascending order of their keys. */
  ghost predicate ReportedInOrder(xs: seq<Conflict>, keys: seq<string>) {
    && (forall i :: 0 <= i < |xs| ==> xs[i].key in keys)
    && (forall i, j :: 0 <= i < j < |xs| ==> Below(xs[i].key, xs[j].key) && xs[i].key != xs[j].key)
  }

  lemma {:induction false} ConflictsInOrder(cs: seq<Claim>, rules: seq<Rule>, keys: seq<string>)
    requires Ascending(keys)
    ensures ReportedInOrder(TallyOf(cs, rules, keys).conflicts, keys)
  {
    hide Below;
    hide Decide;
    hide GroupOf;
    if keys != [] {
      var n := |keys| - 1;
      ConflictsInOrder(cs, rules, keys[..n]);
      AboutItsKey(cs, rules, keys[n]);
      var earlier := TallyOf(cs, rules, keys[..n]).conflicts;
      forall i | 0 <= i < |earlier|
        ensures earlier[i].key in keys && Below(earlier[i].key, keys[n]) && earlier[i].key != keys[n] {
        assert earlier[i].key in keys[..n];
        LastLargest(keys, earlier[i].key);
      }
    }
  }

  /** By key, then owner, then source, then the text of the value. */
  predicate NoLater(c: Claim, d: Claim) {
    if c.key != d.key then Below(c.key, d.key)
    else if c.owner != d.owner then Below(c.owner, d.owner)
    else if c.sourceRef != d.sourceRef then Below(c.sourceRef, d.sourceRef)
    else Below(c.value.text, d.value.text)
  }

  lemma OrderedBy(c: Claim, d: Claim)
    ensures NotAfter(c, d) <==> NoLater(c, d)
  {
    hide Below;
    hide AtMost;
    AtMostStep(SortKey(c), SortKey(d));
    AtMostStep([c.owner, c.sourceRef, c.value.text], [d.owner, d.sourceRef, d.value.text]);
    AtMostStep([c.sourceRef, c.value.text], [d.sourceRef, d.value.text]);
    AtMostStep([c.value.text], [d.value.text]);
    BelowTotal(c.value.text, c.value.text);
    assert SortKey(c)[1..] == [c.owner, c.sourceRef, c.value.text];
    assert SortKey(d)[1..] == [d.owner, d.sourceRef, d.value.text];
    assert [c.owner, c.sourceRef, c.value.text][1..] == [c.sourceRef, c.value.text];
    assert [d.owner, d.sourceRef, d.value.text][1..] == [d.sourceRef, d.value.text];
    assert [c.sourceRef, c.value.text][1..] == [c.value.text] && [d.sourceRef, d.value.text][1..] == [d.value.text];
    assert AtMost([c.value.text][1..], [d.value.text][1..]) by { NothingAtMost([c.value.text][1..],
      [d.value.text][1..]); }
  }

  lemma AtMostStep(a: seq<string>, b: seq<string>)
    requires a != [] && b != []
    ensures AtMost(a, b) <==> if a[0] == b[0] then AtMost(a[1..], b[1..]) else Below(a[0], b[0])
  {
  }

  lemma NothingAtMost(a: seq<string>, b: seq<string>)
    requires a == []
    ensures AtMost(a, b)
  {
  }

  /** Accepted claims come in that order, and so do the resolutions, by key. */
  lemma AcceptedInOrder(cs: seq<Claim>, rules: seq<Rule>)
    requires Reconcile(cs, rules).Accepted?
    ensures var r := Reconcile(cs, rules);
      && (forall i, j :: 0 <= i < j < |r.claims| ==> NoLater(r.claims[i], r.claims[j]))
      && (forall i, j :: 0 <= i < j < |r.resolutions| ==>
            Below(r.resolutions[i].key, r.resolutions[j].key) && r.resolutions[i].key != r.resolutions[j].key)
  {
    hide TallyOf;
    hide NotAfter;
    hide NoLater;
    hide Below;
    ResolutionsInOrder(cs, rules, SortSet(KeysOf(cs)));
    var claims := Reconcile(cs, rules).claims;
    forall i, j | 0 <= i < j < |claims| ensures NoLater(claims[i], claims[j]) { OrderedBy(claims[i], claims[j]); }
  }
}
