/** The functions of Go's `strings` and `strconv` packages that the route builders use, on
    strings of code points, with the facts about them that the routing theorems rest on. */
module GoStrings {
  import opened Wrappers

  /** `unicode.IsSpace`. */
  predicate IsSpace(c: char) {
    var u := c as int;
    || 9 <= u <= 13 || u == 0x20 || u == 0x85 || u == 0xA0 || u == 0x1680
    || 0x2000 <= u <= 0x200A || u == 0x2028 || u == 0x2029 || u == 0x202F || u == 0x205F || u == 0x3000
  }

  predicate AllSpace(s: string) {
    forall i | 0 <= i < |s| :: IsSpace(s[i])
  }

  predicate NoSpace(s: string) {
    forall i | 0 <= i < |s| :: !IsSpace(s[i])
  }

  function TrimRight(s: string): string {
    if s != "" && IsSpace(s[|s| - 1]) then TrimRight(s[..|s| - 1]) else s
  }

  function TrimLeft(s: string): string {
    if s != "" && IsSpace(s[0]) then TrimLeft(s[1..]) else s
  }

  /** `strings.TrimSpace`. */
  function TrimSpace(s: string): string {
    TrimRight(TrimLeft(s))
  }

  /** `strings.Split` for a one-character separator. */
  function Split(s: string, sep: char): (parts: seq<string>)
    ensures parts != []
  {
    if s == "" then [""]
    else
      var rest := Split(s[1..], sep);
      if s[0] == sep then [""] + rest else [[s[0]] + rest[0]] + rest[1..]
  }

  /** `strings.Join` for a one-character separator. */
  function Join(parts: seq<string>, sep: char): string {
    if parts == [] then ""
    else if |parts| == 1 then parts[0]
    else parts[0] + [sep] + Join(parts[1..], sep)
  }

  function Count(s: string, c: char): nat {
    if s == "" then 0 else (if s[0] == c then 1 else 0) + Count(s[1..], c)
  }

  /** `strings.ReplaceAll(s, ".", "-")`. */
  function DotsToDashes(s: string): (r: string)
    ensures |r| == |s| && '.' !in r
    ensures forall i | 0 <= i < |s| :: r[i] == if s[i] == '.' then '-' else s[i]
  {
    seq(|s|, i requires 0 <= i < |s| => if s[i] == '.' then '-' else s[i])
  }

  /** `strings.Contains`. */
  predicate Contains(s: string, sub: string) {
    sub <= s || (s != "" && Contains(s[1..], sub))
  }

  /** A string stands at some index of another. */
  predicate OccursAt(s: string, sub: string, i: int) {
    0 <= i <= |s| - |sub| && s[i..i + |sub|] == sub
  }

  predicate Occurs(s: string, sub: string) {
    exists i | 0 <= i <= |s| :: OccursAt(s, sub, i)
  }

  lemma OccursLater(s: string, sub: string, i: int)
    requires s != "" && 0 <= i
    ensures OccursAt(s, sub, i + 1) <==> OccursAt(s[1..], sub, i)
  {
    if i + 1 <= |s| - |sub| {
      assert s[i + 1..i + 1 + |sub|] == s[1..][i..i + |sub|];
    }
  }

  /** `Contains` finds it wherever it stands. */
  lemma {:induction false} ContainsExactly(s: string, sub: string)
    ensures Contains(s, sub) <==> Occurs(s, sub)
  {
    assert sub <= s <==> OccursAt(s, sub, 0);
    if s != "" {
      ContainsExactly(s[1..], sub);
      forall i | 0 <= i < |s| ensures OccursAt(s, sub, i + 1) <==> OccursAt(s[1..], sub, i) {
        OccursLater(s, sub, i);
      }
      if Occurs(s, sub) {
        var i :| 0 <= i <= |s| && OccursAt(s, sub, i);
        assert i > 0 ==> OccursAt(s[1..], sub, i - 1);
      }
    }
  }

  /** The white space characters, listed. */
  const SPACES := "\t\n\U{0B}\U{0C}\r \U{85}\U{A0}\U{1680}\U{2000}\U{2001}\U{2002}\U{2003}\U{2004}\U{2005}\U{2006}\U{2007}\U{2008}\U{2009}\U{200A}\U{2028}\U{2029}\U{202F}\U{205F}\U{3000}"

  lemma IsSpaceExactly(c: char)
    ensures IsSpace(c) <==> c in SPACES
  {
    assert |SPACES| == 25;
    if IsSpace(c) {
      var u := c as int;
      if 9 <= u <= 13 {
        assert SPACES[u - 9] == c;
      } else if 0x2000 <= u <= 0x200A {
        assert SPACES[u - 0x2000 + 9] == c;
      } else {
        assert c in {SPACES[5], SPACES[6], SPACES[7], SPACES[8], SPACES[20], SPACES[21], SPACES[22], SPACES[23], SPACES[24]};
      }
    }
  }

  /** `strconv.ParseBool`: 1, t, T, true, True, TRUE and 0, f, F, false, False, FALSE; `None` is
      its syntax error. */
  function ParseBool(s: string): Option<bool> {
    if |s| == 1 then
      if s[0] in {'1', 't', 'T'} then Some(true)
      else if s[0] in {'0', 'f', 'F'} then Some(false)
      else None
    else if |s| == 4 then
      if (s[0] in {'t', 'T'} && s[1] == 'r' && s[2] == 'u' && s[3] == 'e')
         || (s[0] == 'T' && s[1] == 'R' && s[2] == 'U' && s[3] == 'E')
      then Some(true) else None
    else if |s| == 5 then
      if (s[0] in {'f', 'F'} && s[1] == 'a' && s[2] == 'l' && s[3] == 's' && s[4] == 'e')
         || (s[0] == 'F' && s[1] == 'A' && s[2] == 'L' && s[3] == 'S' && s[4] == 'E')
      then Some(false) else None
    else None
  }

  /** The accepted spellings, listed. */
  predicate SpellsTrue(s: string) {
    s in {"1", "t", "T", "true", "True", "TRUE"}
  }

  predicate SpellsFalse(s: string) {
    s in {"0", "f", "F", "false", "False", "FALSE"}
  }

  /** Those and no others. */
  lemma ParseBoolSpellings(s: string)
    ensures ParseBool(s) == Some(true) <==> SpellsTrue(s)
    ensures ParseBool(s) == Some(false) <==> SpellsFalse(s)
  {
    if |s| == 1 {
      assert s == [s[0]];
    } else if |s| == 4 {
      assert s == [s[0], s[1], s[2], s[3]];
    } else if |s| == 5 {
      assert s == [s[0], s[1], s[2], s[3], s[4]];
    }
  }

  // ---- Split and Join -------------------------------------------------------------------

  /** Splitting keeps every character: one part more than there are separators, no separator
      inside a part, and joining restores the input. */
  lemma {:induction false} SplitConserves(s: string, sep: char)
    ensures |Split(s, sep)| == Count(s, sep) + 1
    ensures forall i | 0 <= i < |Split(s, sep)| :: sep !in Split(s, sep)[i]
    ensures Join(Split(s, sep), sep) == s
  {
    if s != "" {
      SplitConserves(s[1..], sep);
      var rest := Split(s[1..], sep);
      var all := Split(s, sep);
      if s[0] == sep {
        assert all[1..] == rest;
      } else {
        assert all[1..] == rest[1..];
        if |rest| == 1 {
          assert Join(all, sep) == [s[0]] + rest[0];
        } else {
          assert Join(all, sep) == [s[0]] + rest[0] + [sep] + Join(rest[1..], sep);
        }
      }
    }
  }

  /** Splitting is the only way to cut a string at its separators: it undoes Join. */
  lemma {:induction false} SplitInvertsJoin(parts: seq<string>, sep: char)
    requires parts != []
    requires forall i | 0 <= i < |parts| :: sep !in parts[i]
    ensures Split(Join(parts, sep), sep) == parts
    decreases |parts|, |parts[0]|
  {
    var s := Join(parts, sep);
    if parts[0] == "" {
      if |parts| > 1 {
        assert s == [sep] + Join(parts[1..], sep);
        assert s[1..] == Join(parts[1..], sep);
        SplitInvertsJoin(parts[1..], sep);
      }
    } else {
      var shorter := [parts[0][1..]] + parts[1..];
      assert shorter[1..] == parts[1..];
      assert s == [parts[0][0]] + Join(shorter, sep);
      assert s[1..] == Join(shorter, sep);
      SplitInvertsJoin(shorter, sep);
      assert parts[0] == [parts[0][0]] + shorter[0];
    }
  }

  // ---- Trimming -------------------------------------------------------------------------

  /** Trimming the right cuts off spaces, and all of them. */
  predicate IsTrimmedRight(s: string, r: string) {
    r <= s && AllSpace(s[|r|..]) && (r != "" ==> !IsSpace(r[|r| - 1]))
  }

  lemma {:induction false} TrimRightSpec(s: string)
    ensures IsTrimmedRight(s, TrimRight(s))
  {
    if s != "" && IsSpace(s[|s| - 1]) {
      var t := s[..|s| - 1];
      TrimRightSpec(t);
      var r := TrimRight(t);
      assert s[|r|..] == t[|r|..] + [s[|s| - 1]];
    }
  }

  predicate IsTrimmedLeft(s: string, r: string) {
    |r| <= |s| && r == s[|s| - |r|..] && AllSpace(s[..|s| - |r|]) && (r != "" ==> !IsSpace(r[0]))
  }

  lemma {:induction false} TrimLeftSpec(s: string)
    ensures IsTrimmedLeft(s, TrimLeft(s))
  {
    if s != "" && IsSpace(s[0]) {
      TrimLeftSpec(s[1..]);
      var r := TrimLeft(s[1..]);
      assert s[..|s| - |r|] == [s[0]] + s[1..][..|s| - 1 - |r|];
    }
  }

  /** Nothing else is trimmed on the right. */
  lemma {:induction false} TrimRightUnique(s: string, r: string)
    requires IsTrimmedRight(s, r)
    ensures TrimRight(s) == r
  {
    if |r| < |s| {
      assert s[|r|..][|s| - 1 - |r|] == s[|s| - 1];
      var t := s[..|s| - 1];
      assert forall i | 0 <= i < |t| - |r| :: t[|r|..][i] == s[|r|..][i];
      TrimRightUnique(t, r);
    }
  }

  /** Trimming a host `name.d` only reaches the end of `d`: the dot stops it. */
  lemma TrimSpaceOfHost(name: string, d: string)
    requires name == "" || !IsSpace(name[0])
    ensures TrimSpace(name + "." + d) == name + "." + TrimRight(d)
  {
    var s := name + "." + d;
    TrimRightSpec(d);
    var t := TrimRight(d);
    var r := name + "." + t;
    assert s[0] == if name == "" then '.' else name[0];
    assert TrimLeft(s) == s;
    assert d == t + d[|t|..];
    assert s == r + d[|t|..];
    assert s[|r|..] == d[|t|..];
    assert r[|r| - 1] == if t == "" then '.' else t[|t| - 1];
    TrimRightUnique(s, r);
  }

  /** Trimming only the right agrees with trimming both sides exactly when what is left after
      the right trim does not start with a space; a trimmed string never does. */
  lemma TrimRightIsTrimSpace(d: string)
    ensures TrimRight(d) == TrimSpace(d) <==> (TrimRight(d) == "" || !IsSpace(d[0]))
    ensures TrimSpace(d) == "" || !IsSpace(TrimSpace(d)[0])
  {
    TrimLeftSpec(d);
    TrimRightSpec(d);
    TrimRightSpec(TrimLeft(d));
    var l := TrimLeft(d);
    var r := TrimRight(d);
    assert TrimSpace(d) <= l;
    if r == "" {
      assert d[|r|..] == d;
      SpacesTrimToNothing(d);
    } else if !IsSpace(d[0]) {
      assert l == d;
    } else {
      assert r[0] == d[0];
    }
  }

  lemma {:induction false} SpacesTrimToNothing(d: string)
    requires AllSpace(d)
    ensures TrimLeft(d) == ""
  {
    if d != "" {
      assert forall i | 0 <= i < |d| - 1 :: d[1..][i] == d[i + 1];
      SpacesTrimToNothing(d[1..]);
    }
  }

  // ---- Hosts and names ------------------------------------------------------------------

  /** What precedes the first dot. */
  function FirstLabel(s: string): string {
    if s == "" || s[0] == '.' then "" else [s[0]] + FirstLabel(s[1..])
  }

  /** A host of the form `name.rest` determines a dot-free name. */
  lemma {:induction false} FirstLabelOfHost(name: string, rest: string)
    requires '.' !in name
    ensures FirstLabel(name + "." + rest) == name
  {
    if name != "" {
      assert (name + "." + rest)[1..] == name[1..] + "." + rest;
      FirstLabelOfHost(name[1..], rest);
    }
  }
}
