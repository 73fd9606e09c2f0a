/** What the Ingress option pipeline amounts to: exactly when it succeeds, what it produces, and
    which of its orders matter. */
module IngressPipeline {
  import opened Wrappers
  import opened GoStrings
  import opened GameServers
  import opened CustomAnnotations
  import opened Resources
  import opened IngressBuilder

  // ---- Success and effect come apart ------------------------------------------------------

  predicate AllSucceed(opts: seq<IngressOption>, gs: GameServer, t: TemplateEngine) {
    forall o | o in opts :: Succeeds(o, gs, t)
  }

  function UpdateAll(opts: seq<IngressOption>, gs: GameServer, t: TemplateEngine, v: Ingress): Ingress {
    if opts == [] then v else UpdateAll(opts[1..], gs, t, Update(opts[0], gs, t, v))
  }

  /** A list fails exactly when one of its options does, whatever Ingress it starts from. */
  lemma {:induction false} SuccessIsPerOption(opts: seq<IngressOption>, gs: GameServer, t: TemplateEngine, v: Ingress)
    ensures ApplyAll(opts, gs, t, v)
         == if AllSucceed(opts, gs, t) then Some(UpdateAll(opts, gs, t, v)) else None
  {
    if opts != [] {
      assert forall o :: o in opts <==> o == opts[0] || o in opts[1..];
      SuccessIsPerOption(opts[1..], gs, t, Update(opts[0], gs, t, v));
    }
  }

  lemma SucceedCons(o: IngressOption, rest: seq<IngressOption>, gs: GameServer, t: TemplateEngine)
    ensures AllSucceed([o] + rest, gs, t) <==> Succeeds(o, gs, t) && AllSucceed(rest, gs, t)
  {
    assert forall p :: p in [o] + rest <==> p == o || p in rest;
  }

  lemma UpdateCons(o: IngressOption, rest: seq<IngressOption>, gs: GameServer, t: TemplateEngine, v: Ingress)
    ensures UpdateAll([o] + rest, gs, t, v) == UpdateAll(rest, gs, t, Update(o, gs, t, v))
  {
    assert ([o] + rest)[1..] == rest;
  }

  /** The same two facts for five options and a tail. */
  lemma FiveAndTail(
    o0: IngressOption, o1: IngressOption, o2: IngressOption, o3: IngressOption, o4: IngressOption,
    tail: seq<IngressOption>, gs: GameServer, t: TemplateEngine, v: Ingress)
    ensures AllSucceed([o0, o1, o2, o3, o4] + tail, gs, t) <==>
            && Succeeds(o0, gs, t) && Succeeds(o1, gs, t) && Succeeds(o2, gs, t)
            && Succeeds(o3, gs, t) && Succeeds(o4, gs, t) && AllSucceed(tail, gs, t)
    ensures UpdateAll([o0, o1, o2, o3, o4] + tail, gs, t, v) == UpdateAll(tail, gs, t,
              Update(o4, gs, t, Update(o3, gs, t, Update(o2, gs, t, Update(o1, gs, t, Update(o0, gs, t, v))))))
  {
    var t4 := [o4] + tail;
    var t3 := [o3] + t4;
    var t2 := [o2] + t3;
    var t1 := [o1] + t2;
    assert [o0, o1, o2, o3, o4] + tail == [o0] + t1;
    SucceedCons(o0, t1, gs, t);
    SucceedCons(o1, t2, gs, t);
    SucceedCons(o2, t3, gs, t);
    SucceedCons(o3, t4, gs, t);
    SucceedCons(o4, tail, gs, t);
    var v1 := Update(o0, gs, t, v);
    var v2 := Update(o1, gs, t, v1);
    var v3 := Update(o2, gs, t, v2);
    UpdateCons(o0, t1, gs, t, v);
    UpdateCons(o1, t2, gs, t, v1);
    UpdateCons(o2, t3, gs, t, v2);
    UpdateCons(o3, t4, gs, t, v3);
    UpdateCons(o4, tail, gs, t, Update(o3, gs, t, v3));
  }

  // ---- Confluence -----------------------------------------------------------------------

  function Kind(o: IngressOption): nat {
    match o
    case WithCustomAnnotations => 0
    case WithCustomAnnotationsTemplate => 1
    case WithIngressRule(_) => 2
    case WithTLS(_) => 3
    case WithTLSCertIssuer(_) => 4
    case WithIngressClassName(_) => 5
  }

  /** Options that write annotations, in the order they have to run; `None` for the others. */
  function Layer(o: IngressOption): Option<nat> {
    match o
    case WithCustomAnnotations => Some(0)
    case WithCustomAnnotationsTemplate => Some(1)
    case WithTLSCertIssuer(_) => Some(2)
    case WithIngressClassName(_) => Some(2)
    case _ => None
  }

  /** Plain annotations before templates, both before class name and issuer, and no two different
      options of one kind. */
  predicate Layered(opts: seq<IngressOption>) {
    forall i, j | 0 <= i < j < |opts| ::
      && (Kind(opts[i]) == Kind(opts[j]) ==> opts[i] == opts[j])
      && (Layer(opts[i]).Some? && Layer(opts[j]).Some? ==> Layer(opts[i]).value <= Layer(opts[j]).value)
  }

  predicate Independent(o: IngressOption, p: IngressOption) {
    Kind(o) != Kind(p) && (Layer(o).Some? && Layer(p).Some? ==> Layer(o) == Layer(p))
  }

  lemma IndependentOptionsCommute(o: IngressOption, p: IngressOption, gs: GameServer, t: TemplateEngine, v: Ingress)
    requires Independent(o, p)
    ensures Update(o, gs, t, Update(p, gs, t, v)) == Update(p, gs, t, Update(o, gs, t, v))
  {
    if {Kind(o), Kind(p)} == {4, 5} {
      var issuer := if o.WithTLSCertIssuer? then o.issuer else p.issuer;
      var m := v.annotations;
      assert CERT_MANAGER_ISSUER[0] != INGRESS_CLASS_ANNOTATION[0];
      assert m[CERT_MANAGER_ISSUER := issuer] - {INGRESS_CLASS_ANNOTATION}
          == (m - {INGRESS_CLASS_ANNOTATION})[CERT_MANAGER_ISSUER := issuer];
    }
  }

  /** An option independent of everything before it can be run first. */
  lemma {:induction false} MoveToFront(opts: seq<IngressOption>, i: nat, gs: GameServer, t: TemplateEngine, v: Ingress)
    requires i < |opts|
    requires forall j | 0 <= j < i :: Independent(opts[i], opts[j])
    ensures UpdateAll(opts, gs, t, v) == UpdateAll(opts[..i] + opts[i + 1..], gs, t, Update(opts[i], gs, t, v))
  {
    if i == 0 {
      assert opts[..0] + opts[1..] == opts[1..];
    } else {
      var rest := opts[1..];
      MoveToFront(rest, i - 1, gs, t, Update(opts[0], gs, t, v));
      IndependentOptionsCommute(opts[i], opts[0], gs, t, v);
      assert (opts[..i] + opts[i + 1..])[1..] == rest[..i - 1] + rest[i..];
    }
  }

  /** Confluence: any two layered orders of the same options build the same Ingress, or both
      fail. */
  lemma Confluence(xs: seq<IngressOption>, ys: seq<IngressOption>, gs: GameServer, t: TemplateEngine, v: Ingress)
    requires multiset(xs) == multiset(ys)
    requires Layered(xs) && Layered(ys)
    ensures ApplyAll(xs, gs, t, v) == ApplyAll(ys, gs, t, v)
  {
    SuccessIsPerOption(xs, gs, t, v);
    SuccessIsPerOption(ys, gs, t, v);
    assert forall o :: o in xs <==> o in multiset(xs);
    assert forall o :: o in ys <==> o in multiset(ys);
    SameUpdate(xs, ys, gs, t, v);
  }

  lemma {:induction false} SameUpdate(xs: seq<IngressOption>, ys: seq<IngressOption>, gs: GameServer, t: TemplateEngine, v: Ingress)
    requires multiset(xs) == multiset(ys)
    requires Layered(xs) && Layered(ys)
    ensures UpdateAll(xs, gs, t, v) == UpdateAll(ys, gs, t, v)
    decreases |xs|
  {
    if xs == [] {
      assert |multiset(ys)| == 0;
    } else {
      var i := HeadIsMovable(xs, ys);
      MoveToFront(ys, i, gs, t, v);
      LayeredWithout(ys, i);
      SameUpdate(xs[1..], ys[..i] + ys[i + 1..], gs, t, Update(xs[0], gs, t, v));
    }
  }

  /** The first option of one layered order can be moved to the front of any other. */
  lemma HeadIsMovable(xs: seq<IngressOption>, ys: seq<IngressOption>) returns (i: nat)
    requires xs != [] && multiset(xs) == multiset(ys)
    requires Layered(xs) && Layered(ys)
    ensures i < |ys| && ys[i] == xs[0]
    ensures forall j | 0 <= j < i :: Independent(ys[i], ys[j])
    ensures multiset(xs[1..]) == multiset(ys[..i] + ys[i + 1..])
  {
    assert xs[0] in multiset(ys);
    i := FirstIndex(ys, xs[0]);
    forall j | 0 <= j < i ensures Independent(xs[0], ys[j]) {
      assert ys[j] in multiset(xs);
      var k :| 0 <= k < |xs| && xs[k] == ys[j];
    }
    RemoveSame(xs, ys, i);
  }

  lemma RemoveSame<T>(xs: seq<T>, ys: seq<T>, i: nat)
    requires xs != [] && i < |ys| && ys[i] == xs[0]
    requires multiset(xs) == multiset(ys)
    ensures multiset(xs[1..]) == multiset(ys[..i] + ys[i + 1..])
  {
    assert ys == ys[..i] + [ys[i]] + ys[i + 1..];
    assert xs == [xs[0]] + xs[1..];
    assert multiset(ys) == multiset(ys[..i]) + multiset{ys[i]} + multiset(ys[i + 1..]);
    assert multiset(xs[1..]) == multiset(xs) - multiset{xs[0]};
    assert multiset(ys[..i] + ys[i + 1..]) == multiset(ys) - multiset{ys[i]};
  }

  function FirstIndex(opts: seq<IngressOption>, o: IngressOption): (i: nat)
    requires o in opts
    ensures i < |opts| && opts[i] == o && o !in opts[..i]
  {
    if opts[0] == o then 0 else
      var i := 1 + FirstIndex(opts[1..], o);
      assert opts[..i] == [opts[0]] + opts[1..][..i - 1];
      i
  }

  lemma LayeredWithout(opts: seq<IngressOption>, i: nat)
    requires i < |opts| && Layered(opts)
    ensures Layered(opts[..i] + opts[i + 1..])
  {
    var less := opts[..i] + opts[i + 1..];
    forall a, b | 0 <= a < b < |less|
      ensures Kind(less[a]) == Kind(less[b]) ==> less[a] == less[b]
      ensures Layer(less[a]).Some? && Layer(less[b]).Some? ==> Layer(less[a]).value <= Layer(less[b]).value
    {
      var a' := if a < i then a else a + 1;
      var b' := if b < i then b else b + 1;
      assert less[a] == opts[a'] && less[b] == opts[b'];
    }
  }

  /** The order is needed: a class name set before the plain annotations are copied leaves the
      class annotation beside it exactly for game servers with the legacy class annotation. */
  lemma ClassNameFirstIsWrong(className: string, gs: GameServer, t: TemplateEngine, v: Ingress)
    requires className != "" && PlainOk(gs.annotations, CUSTOM_PREFIX)
    ensures var out := ApplyAll([WithIngressClassName(className), WithCustomAnnotations], gs, t, v);
            && out.Some? && out.value.className.Some?
            && (INGRESS_CLASS_ANNOTATION in out.value.annotations <==> CLASS_LEGACY in gs.annotations)
  {
    var o, p := WithIngressClassName(className), WithCustomAnnotations;
    assert [o, p] == [o] + [p] && [p] == [p] + [];
    SuccessIsPerOption([o, p], gs, t, v);
    UpdateCons(o, [p], gs, t, v);
    UpdateCons(p, [], gs, t, Update(o, gs, t, v));
    SucceedCons(o, [p], gs, t);
    SucceedCons(p, [], gs, t);
    assert INGRESS_CLASS_ANNOTATION in Forwarded(gs.annotations, CUSTOM_PREFIX) <==> CLASS_LEGACY in gs.annotations by {
      LegacyIsPrefixedClass();
      SuffixesAre(gs.annotations, CUSTOM_PREFIX);
    }
  }

  lemma LegacyIsPrefixedClass()
    ensures CUSTOM_PREFIX + INGRESS_CLASS_ANNOTATION == CLASS_LEGACY
  {
  }

  // ---- The controller's own list --------------------------------------------------------

  /** Everything a game server needs for its Ingress to be built. */
  predicate Buildable(gs: GameServer, t: TemplateEngine) {
    && TemplateOk(gs.annotations, CUSTOM_PREFIX, t)
    && RulesOk(gs, RoutingMode(gs))
    && TLSOk(gs, RoutingMode(gs))
    && IngressClassName(gs) != ""
  }

  /** The annotations of the finished Ingress, name by name, read off the game server. */
  function AnnotationSpec(gs: GameServer, t: TemplateEngine, c: string): Option<string> {
    var a := gs.annotations;
    var port := if |gs.statusPorts| > 0 then gs.statusPorts[0].port else 0;
    if && c == CERT_MANAGER_ISSUER && TERMINATE_TLS in a && SpellsTrue(a[TERMINATE_TLS])
       && ISSUER in a && a[ISSUER] != "" then
      Some(a[ISSUER])
    else if c == INGRESS_CLASS_ANNOTATION || CUSTOM_PREFIX + c !in a then
      None
    else
      var raw := a[CUSTOM_PREFIX + c];
      if Occurs(raw, "{{") && Occurs(raw, "}}") && t.render(raw, gs.name, port) != "" then
        Some(t.render(raw, gs.name, port))
      else
        Some(raw)
  }

  /** The controller's list is layered, so every layered reordering of it builds the same. */
  lemma ControllerListIsLayered(gs: GameServer)
    ensures Layered(IngressOptions(gs))
  {
  }

  /** The finished annotations, as the fold computes them. */
  function FinalAnnotations(gs: GameServer, t: TemplateEngine): Annotations {
    if TerminatesTLS(gs) == Some(true) && TLSCertIssuer(gs) != ""
    then CustomOnly(gs, t)[CERT_MANAGER_ISSUER := TLSCertIssuer(gs)] else CustomOnly(gs, t)
  }

  function CustomOnly(gs: GameServer, t: TemplateEngine): Annotations {
    map[] + Forwarded(gs.annotations, CUSTOM_PREFIX)
    + Rendered(gs.annotations, CUSTOM_PREFIX, t, gs.name, StatusPort(gs))
    - {INGRESS_CLASS_ANNOTATION}
  }

  /** When TLS terminates, on the annotation itself. */
  lemma TerminatesExactly(gs: GameServer)
    ensures TerminatesTLS(gs) == Some(true) <==> TERMINATE_TLS in gs.annotations && SpellsTrue(gs.annotations[TERMINATE_TLS])
  {
    if TERMINATE_TLS in gs.annotations {
      ParseBoolSpellings(gs.annotations[TERMINATE_TLS]);
    }
  }

  lemma FinalAnnotationsAt(gs: GameServer, t: TemplateEngine, c: string)
    ensures var m := FinalAnnotations(gs, t);
            && (c in m <==> AnnotationSpec(gs, t, c).Some?)
            && (c in m ==> AnnotationSpec(gs, t, c) == Some(m[c]))
            && INGRESS_CLASS_ANNOTATION !in m
  {
    var f := Forwarded(gs.annotations, CUSTOM_PREFIX);
    assert map[] + f == f;
    TerminatesExactly(gs);
    if CUSTOM_PREFIX + c in gs.annotations {
      BracesExactly(gs.annotations[CUSTOM_PREFIX + c]);
    }
    BothPassesAt(gs.annotations, CUSTOM_PREFIX, t, gs.name, StatusPort(gs), c);
    assert CERT_MANAGER_ISSUER[0] != INGRESS_CLASS_ANNOTATION[0];
  }

  lemma BuildableByOption(gs: GameServer, t: TemplateEngine)
    ensures Buildable(gs, t) <==>
            && Succeeds(WithCustomAnnotations, gs, t) && Succeeds(WithCustomAnnotationsTemplate, gs, t)
            && Succeeds(WithIngressRule(RoutingMode(gs)), gs, t) && Succeeds(WithTLS(RoutingMode(gs)), gs, t)
            && Succeeds(WithIngressClassName(IngressClassName(gs)), gs, t)
    ensures Buildable(gs, t) ==> TerminatesTLS(gs).Some?
  {
  }

  /** The controller's list, folded. */
  lemma BuildIngressFolds(gs: GameServer, t: TemplateEngine)
    ensures var w := WithoutIssuer(RoutingMode(gs), IngressClassName(gs), gs, t, EmptyIngress(gs));
            BuildIngress(gs, t) ==
            if !Buildable(gs, t) then None
            else if TLSCertIssuer(gs) != "" then Some(Update(WithTLSCertIssuer(TLSCertIssuer(gs)), gs, t, w)) else Some(w)
  {
    var mode := RoutingMode(gs);
    var tail := if TLSCertIssuer(gs) != "" then [WithTLSCertIssuer(TLSCertIssuer(gs))] else [];
    FiveAndTail(WithCustomAnnotations, WithCustomAnnotationsTemplate, WithIngressRule(mode), WithTLS(mode),
      WithIngressClassName(IngressClassName(gs)), tail, gs, t, EmptyIngress(gs));
    SuccessIsPerOption(IngressOptions(gs), gs, t, EmptyIngress(gs));
    BuildableByOption(gs, t);
    IssuerTail(gs, t, WithoutIssuer(mode, IngressClassName(gs), gs, t, EmptyIngress(gs)));
  }

  /** The builder succeeds exactly on buildable game servers, and this is what it builds. */
  lemma BuildIngressExactly(gs: GameServer, t: TemplateEngine)
    ensures BuildIngress(gs, t).Some? <==> Buildable(gs, t)
    ensures Buildable(gs, t) ==>
      var ingress, mode := BuildIngress(gs, t).value, RoutingMode(gs);
      && ingress.namespace == gs.namespace && ingress.name == gs.name && ingress.labels == GameServerLabels(gs)
      && ingress.annotations == FinalAnnotations(gs, t)
      && ingress.rules == RulesOf(gs, mode)
      && ingress.tls == (if TerminatesTLS(gs) == Some(true) then TLSOf(gs, mode) else [])
      && ingress.className == (if CLASS in gs.annotations then Lookup(gs, CLASS) else Lookup(gs, CLASS_LEGACY))
  {
    BuildIngressFolds(gs, t);
    WithoutIssuerFields(RoutingMode(gs), IngressClassName(gs), gs, t, EmptyIngress(gs));
  }

  /** An Ingress after the five options that are always there. */
  function WithoutIssuer(mode: string, className: string, gs: GameServer, t: TemplateEngine, v: Ingress): Ingress {
    Update(WithIngressClassName(className), gs, t,
      Update(WithTLS(mode), gs, t,
        Update(WithIngressRule(mode), gs, t,
          Update(WithCustomAnnotationsTemplate, gs, t,
            Update(WithCustomAnnotations, gs, t, v)))))
  }

  lemma WithoutIssuerFields(mode: string, className: string, gs: GameServer, t: TemplateEngine, v: Ingress)
    ensures var w := WithoutIssuer(mode, className, gs, t, v);
            && w.namespace == v.namespace && w.name == v.name && w.labels == v.labels
            && w.annotations == v.annotations + Forwarded(gs.annotations, CUSTOM_PREFIX)
                                + Rendered(gs.annotations, CUSTOM_PREFIX, t, gs.name, StatusPort(gs))
                                - {INGRESS_CLASS_ANNOTATION}
            && w.rules == RulesOf(gs, mode)
            && w.tls == (if TerminatesTLS(gs) == Some(true) then TLSOf(gs, mode) else v.tls)
            && w.className == Some(className)
  {
  }

  lemma IssuerTail(gs: GameServer, t: TemplateEngine, v: Ingress)
    ensures var tail := if TLSCertIssuer(gs) != "" then [WithTLSCertIssuer(TLSCertIssuer(gs))] else [];
            && (AllSucceed(tail, gs, t) <==> TLSCertIssuer(gs) == "" || TerminatesTLS(gs).Some?)
            && UpdateAll(tail, gs, t, v) ==
               if TLSCertIssuer(gs) != "" then Update(WithTLSCertIssuer(TLSCertIssuer(gs)), gs, t, v) else v
  {
    if TLSCertIssuer(gs) != "" {
      var o := WithTLSCertIssuer(TLSCertIssuer(gs));
      assert [o] == [o] + [];
      UpdateCons(o, [], gs, t, v);
      SucceedCons(o, [], gs, t);
    }
  }

  /** The finished annotations meet the pointwise specification; in particular the class
      annotation never stands beside the class name. */
  lemma FinalAnnotationsMeetSpec(gs: GameServer, t: TemplateEngine, c: string)
    requires BuildIngress(gs, t).Some?
    ensures var ingress := BuildIngress(gs, t).value;
            && (c in ingress.annotations <==> AnnotationSpec(gs, t, c).Some?)
            && (c in ingress.annotations ==> AnnotationSpec(gs, t, c) == Some(ingress.annotations[c]))
            && ingress.className.Some? && INGRESS_CLASS_ANNOTATION !in ingress.annotations
  {
    BuildIngressExactly(gs, t);
    assert BuildIngress(gs, t).value.annotations == FinalAnnotations(gs, t);
    FinalAnnotationsAt(gs, t, c);
  }

  /** Agreement on every annotation outside a set. */
  ghost predicate SameBut(gs: GameServer, gs': GameServer, keys: set<string>) {
    && gs' == gs.(annotations := gs'.annotations)
    && forall k | k !in keys :: Lookup(gs, k) == Lookup(gs', k)
  }

  /** Annotations under the control prefix never reach the forwarding passes. */
  lemma ControlKeysAreNotForwarded(gs: GameServer, gs': GameServer, keys: set<string>, t: TemplateEngine)
    requires SameBut(gs, gs', keys)
    requires forall k | k in keys :: CONTROL_PREFIX <= k
    ensures TemplateOk(gs.annotations, CUSTOM_PREFIX, t) <==> TemplateOk(gs'.annotations, CUSTOM_PREFIX, t)
    ensures PlainOk(gs.annotations, CUSTOM_PREFIX) <==> PlainOk(gs'.annotations, CUSTOM_PREFIX)
    ensures Forwarded(gs.annotations, CUSTOM_PREFIX) == Forwarded(gs'.annotations, CUSTOM_PREFIX)
    ensures Rendered(gs.annotations, CUSTOM_PREFIX, t, gs.name, StatusPort(gs))
         == Rendered(gs'.annotations, CUSTOM_PREFIX, t, gs'.name, StatusPort(gs'))
  {
    var a, a' := gs.annotations, gs'.annotations;
    forall k | CUSTOM_PREFIX <= k ensures (k in a <==> k in a') && (k in a ==> a[k] == a'[k]) {
      PrefixesPartition(k);
      assert Lookup(gs, k) == Lookup(gs', k);
    }
    assert CUSTOM_PREFIX in a <==> CUSTOM_PREFIX in a';
    assert forall c :: CUSTOM_PREFIX <= CUSTOM_PREFIX + c;
    SuffixesAre(a, CUSTOM_PREFIX);
    SuffixesAre(a', CUSTOM_PREFIX);
    assert Suffixes(a, CUSTOM_PREFIX) == Suffixes(a', CUSTOM_PREFIX);
  }

  /** The issuer never decides whether an Ingress is built, terminating TLS or not. */
  lemma IssuerIsOptional(gs: GameServer, gs': GameServer, t: TemplateEngine)
    requires SameBut(gs, gs', {ISSUER})
    ensures BuildIngress(gs, t).Some? <==> BuildIngress(gs', t).Some?
  {
    BuildIngressExactly(gs, t);
    BuildIngressExactly(gs', t);
    IssuerIsControl();
    ControlKeysAreNotForwarded(gs, gs', {ISSUER}, t);
    SameChecks(gs, gs');
  }

  lemma IssuerIsControl()
    ensures CONTROL_PREFIX <= ISSUER
  {
  }

  lemma SameChecks(gs: GameServer, gs': GameServer)
    requires SameBut(gs, gs', {ISSUER})
    ensures RoutingMode(gs) == RoutingMode(gs')
    ensures RulesOk(gs, RoutingMode(gs)) <==> RulesOk(gs', RoutingMode(gs))
    ensures TLSOk(gs, RoutingMode(gs)) <==> TLSOk(gs', RoutingMode(gs))
    ensures IngressClassName(gs) == IngressClassName(gs')
  {
    OthersAreNotIssuer();
    assert Lookup(gs, MODE) == Lookup(gs', MODE);
    assert Lookup(gs, HostAnnotation(RoutingMode(gs))) == Lookup(gs', HostAnnotation(RoutingMode(gs)));
    assert Lookup(gs, TERMINATE_TLS) == Lookup(gs', TERMINATE_TLS) && Lookup(gs, TLS_SECRET) == Lookup(gs', TLS_SECRET);
    assert Lookup(gs, CLASS) == Lookup(gs', CLASS) && Lookup(gs, CLASS_LEGACY) == Lookup(gs', CLASS_LEGACY);
  }

  lemma OthersAreNotIssuer()
    ensures ISSUER !in {MODE, DOMAIN, FQDN, TERMINATE_TLS, TLS_SECRET, CLASS, CLASS_LEGACY}
  {
    assert ISSUER[10] == 'i' && TLS_SECRET[10] == 't';
  }
}
