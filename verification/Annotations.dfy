/** Forwarding of prefixed game server annotations: a plain pass and a template pass, each a
    loop over a Go map, whose iteration order is arbitrary. */
module CustomAnnotations {
  import opened GoStrings
  import opened GameServers

  /** Go's text/template, uninterpreted: whether a text parses, and what executing it on a name
      and a port leaves in the builder (possibly nothing, possibly a part). */
  datatype TemplateEngine = TemplateEngine(
    parse: string -> bool,
    render: (string, string, int) -> string)

  /** A Go `map[string]string` held by an object's metadata. */
  class AnnotationMap {
    var m: Annotations

    constructor ()
      ensures m == map[]
    {
      m := map[];
    }
  }

  predicate HasBraces(v: string) {
    Contains(v, "{{") && Contains(v, "}}")
  }

  /** A template has both braces, wherever they stand. */
  lemma BracesExactly(v: string)
    ensures HasBraces(v) <==> Occurs(v, "{{") && Occurs(v, "}}")
  {
    ContainsExactly(v, "{{");
    ContainsExactly(v, "}}");
  }

  /** The annotation names that remain after removing the prefix. */
  function Suffixes(a: Annotations, prefix: string): set<string> {
    set k | k in a && prefix <= k :: k[|prefix|..]
  }

  lemma SuffixesAre(a: Annotations, prefix: string)
    ensures forall c :: c in Suffixes(a, prefix) <==> prefix + c in a
  {
    forall c ensures c in Suffixes(a, prefix) <==> prefix + c in a {
      assert prefix <= prefix + c && (prefix + c)[|prefix|..] == c;
      assert forall k | prefix <= k :: prefix + k[|prefix|..] == k;
    }
  }

  /** The value behind a forwarded name. */
  function Raw(a: Annotations, prefix: string, c: string): string {
    if prefix + c in a then a[prefix + c] else ""
  }

  /** What the plain pass adds. */
  function Forwarded(a: Annotations, prefix: string): Annotations {
    map c | c in Suffixes(a, prefix) :: Raw(a, prefix, c)
  }

  /** What the template pass adds. */
  function Rendered(a: Annotations, prefix: string, t: TemplateEngine, name: string, port: int): Annotations {
    map c | c in Suffixes(a, prefix) && HasBraces(Raw(a, prefix, c)) && t.render(Raw(a, prefix, c), name, port) != ""
      :: t.render(Raw(a, prefix, c), name, port)
  }

  /** The plain pass fails on an annotation that is the bare prefix. */
  predicate PlainOk(a: Annotations, prefix: string) {
    prefix !in a
  }

  predicate TemplateParses(v: string, t: TemplateEngine) {
    HasBraces(v) ==> t.parse(v)
  }

  /** The template pass fails on that, and on a template that does not parse. */
  predicate TemplateOk(a: Annotations, prefix: string, t: TemplateEngine) {
    prefix !in a && forall k | k in a && prefix <= k :: TemplateParses(a[k], t)
  }

  /** The same for one annotation. */
  predicate EntryOk(a: Annotations, prefix: string, t: TemplateEngine, k: string)
    requires k in a
  {
    prefix <= k ==> k != prefix && TemplateParses(a[k], t)
  }

  /** The same for the annotations that have been visited. */
  predicate VisitedOk(a: Annotations, prefix: string, t: TemplateEngine, todo: set<string>) {
    forall k | k in a && k !in todo :: EntryOk(a, prefix, t, k)
  }

  lemma AllVisitedOk(a: Annotations, prefix: string, t: TemplateEngine)
    ensures VisitedOk(a, prefix, t, {}) <==> TemplateOk(a, prefix, t)
    ensures VisitedOk(a, prefix, t, a.Keys)
  {
    if prefix in a {
      assert !EntryOk(a, prefix, t, prefix);
    } else if VisitedOk(a, prefix, t, {}) {
      forall k | k in a && prefix <= k ensures TemplateParses(a[k], t) {
        assert EntryOk(a, prefix, t, k);
      }
    }
  }

  lemma VisitOneOk(a: Annotations, prefix: string, t: TemplateEngine, todo: set<string>, k: string)
    requires k in a && VisitedOk(a, prefix, t, todo)
    ensures EntryOk(a, prefix, t, k) ==> VisitedOk(a, prefix, t, todo - {k})
    ensures !EntryOk(a, prefix, t, k) ==> !TemplateOk(a, prefix, t)
  {
  }

  /** A map overlaid with the part of `all` whose keys have been visited. */
  ghost function Overlaid(start: Annotations, all: Annotations, prefix: string, todo: set<string>): Annotations {
    start + map c | c in all && prefix + c !in todo :: all[c]
  }

  /** A map after one key has been visited: it has the entry of `all` for it, if there is one. */
  function Put(m: Annotations, all: Annotations, prefix: string, k: string): Annotations {
    if prefix <= k && k[|prefix|..] in all then m[k[|prefix|..] := all[k[|prefix|..]]] else m
  }

  lemma NameOfKey(prefix: string, c: string, k: string)
    ensures prefix + c == k <==> prefix <= k && c == k[|prefix|..]
  {
    assert (prefix + c)[|prefix|..] == c;
    if prefix <= k {
      assert prefix + k[|prefix|..] == k;
    }
  }

  lemma VisitOne(start: Annotations, all: Annotations, prefix: string, todo: set<string>, k: string)
    requires k in todo
    ensures Overlaid(start, all, prefix, todo - {k}) == Put(Overlaid(start, all, prefix, todo), all, prefix, k)
  {
    forall c ensures prefix + c == k <==> prefix <= k && c == k[|prefix|..] {
      NameOfKey(prefix, c, k);
    }
  }

  lemma NothingVisited(start: Annotations, all: Annotations, prefix: string, keys: set<string>)
    requires forall c | c in all :: prefix + c in keys
    ensures Overlaid(start, all, prefix, keys) == start
    ensures Overlaid(start, all, prefix, {}) == start + all
  {
  }

  /** The loop of the plain options: on success `dst` is overlaid with `Forwarded`, whatever the
      order in which the keys were visited. */
  method ForwardPlain(a: Annotations, prefix: string, dst: AnnotationMap) returns (ok: bool)
    modifies dst
    ensures ok <==> PlainOk(a, prefix)
    ensures ok ==> dst.m == old(dst.m) + Forwarded(a, prefix)
  {
    var todo := a.Keys;
    ghost var start := dst.m;
    ghost var all := Forwarded(a, prefix);
    SuffixesAre(a, prefix);
    NothingVisited(start, all, prefix, todo);
    while todo != {}
      invariant todo <= a.Keys
      invariant prefix in a ==> prefix in todo
      invariant dst.m == Overlaid(start, all, prefix, todo)
    {
      var k :| k in todo;
      VisitOne(start, all, prefix, todo, k);
      todo := todo - {k};
      if prefix <= k {
        var custom := k[|prefix|..];
        assert k == prefix + custom;
        if |custom| == 0 {
          assert k == prefix;
          return false;
        }
        dst.m := dst.m[custom := a[k]];
      }
    }
    return true;
  }

  /** One annotation of the template pass. */
  method RenderOne(a: Annotations, prefix: string, t: TemplateEngine, name: string, port: int, k: string, dst: AnnotationMap)
    returns (ok: bool)
    requires k in a
    modifies dst
    ensures ok <==> EntryOk(a, prefix, t, k)
    ensures ok ==> dst.m == Put(old(dst.m), Rendered(a, prefix, t, name, port), prefix, k)
  {
    SuffixesAre(a, prefix);
    if !(prefix <= k) {
      return true;
    }
    var custom := k[|prefix|..];
    assert k == prefix + custom;
    if |custom| == 0 {
      return false;
    }
    if !HasBraces(a[k]) {
      return true;
    }
    if !t.parse(a[k]) {
      return false;
    }
    var parsed := t.render(a[k], name, port);
    if |parsed| > 0 {
      dst.m := dst.m[custom := parsed];
    }
    return true;
  }

  /** The loop of the template options. */
  method ForwardRendered(a: Annotations, prefix: string, t: TemplateEngine, name: string, port: int, dst: AnnotationMap)
    returns (ok: bool)
    modifies dst
    ensures ok <==> TemplateOk(a, prefix, t)
    ensures ok ==> dst.m == old(dst.m) + Rendered(a, prefix, t, name, port)
  {
    var todo := a.Keys;
    ghost var start := dst.m;
    ghost var all := Rendered(a, prefix, t, name, port);
    SuffixesAre(a, prefix);
    NothingVisited(start, all, prefix, todo);
    AllVisitedOk(a, prefix, t);
    while todo != {}
      invariant todo <= a.Keys
      invariant VisitedOk(a, prefix, t, todo)
      invariant dst.m == Overlaid(start, all, prefix, todo)
    {
      var k :| k in todo;
      VisitOne(start, all, prefix, todo, k);
      VisitOneOk(a, prefix, t, todo, k);
      todo := todo - {k};
      var done := RenderOne(a, prefix, t, name, port, k, dst);
      if !done {
        return false;
      }
    }
    return true;
  }

  /** Both passes, pointwise: a forwarded name holds its rendered value when the raw value has
      both braces and renders to something, and the raw value otherwise. */
  lemma BothPassesAt(a: Annotations, prefix: string, t: TemplateEngine, name: string, port: int, c: string)
    ensures var out := Forwarded(a, prefix) + Rendered(a, prefix, t, name, port);
            && (c in out <==> prefix + c in a)
            && (c in out ==>
                  out[c] == if HasBraces(a[prefix + c]) && t.render(a[prefix + c], name, port) != ""
                            then t.render(a[prefix + c], name, port) else a[prefix + c])
  {
    SuffixesAre(a, prefix);
  }

  /** Service and route annotations partition: no key is forwarded to both, and no control key
      is forwarded at all. */
  lemma PrefixesPartition(k: string)
    ensures !(CUSTOM_PREFIX <= k && SERVICE_PREFIX <= k)
    ensures CONTROL_PREFIX <= k ==> !(CUSTOM_PREFIX <= k) && !(SERVICE_PREFIX <= k)
  {
    if SERVICE_PREFIX <= k || CONTROL_PREFIX <= k {
      assert k[6] == '.';
    }
    if CONTROL_PREFIX <= k {
      assert k[7] == 'i';
    }
    if SERVICE_PREFIX <= k {
      assert k[7] == SERVICE_PREFIX[7];
    }
    if CUSTOM_PREFIX <= k {
      assert k[6] == CUSTOM_PREFIX[6];
    }
  }

  /** The plain pass is a bijection between the prefixed entries and the forwarded ones. */
  lemma ForwardingIsBijective(a: Annotations, prefix: string)
    ensures |Forwarded(a, prefix)| == |set k | k in a && prefix <= k|
    ensures forall k | k in a && prefix <= k ::
      k[|prefix|..] in Forwarded(a, prefix) && Forwarded(a, prefix)[k[|prefix|..]] == a[k]
    ensures forall c | c in Forwarded(a, prefix) :: prefix + c in a && prefix <= prefix + c
  {
    SuffixesAre(a, prefix);
    assert forall k | prefix <= k :: prefix + k[|prefix|..] == k;
    var prefixed := set k | k in a && prefix <= k;
    SameSize(Suffixes(a, prefix), prefixed, prefix);
    assert Forwarded(a, prefix).Keys == Suffixes(a, prefix);
  }

  lemma {:induction false} SameSize(names: set<string>, keys: set<string>, prefix: string)
    requires forall k | k in keys :: prefix <= k
    requires forall c :: c in names <==> prefix + c in keys
    ensures |names| == |keys|
    decreases names
  {
    assert forall k | k in keys :: k[|prefix|..] in names by {
      assert forall k | k in keys :: prefix + k[|prefix|..] == k;
    }
    if names == {} {
      assert keys == {};
    } else {
      var c :| c in names;
      forall d ensures d in names - {c} <==> prefix + d in keys - {prefix + c} {
        assert prefix + d == prefix + c ==> (prefix + d)[|prefix|..] == (prefix + c)[|prefix|..];
      }
      SameSize(names - {c}, keys - {prefix + c}, prefix);
    }
  }
}
