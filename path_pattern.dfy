/** The `{name}` path patterns of src/index.ts:74-80: the placeholder names
    (`/{([^}]*)}/g`), the regular expression a pattern becomes when each
    placeholder is replaced by `([^/]*)`, and the global, unanchored search
    of that expression over a pathname. Also the `{name}` to `:name` rewrite
    the adapters apply (`/{([^}]+)}/g`). Characters outside placeholders are
    matched literally. */
module PathPattern {
  import opened Wrappers

  /** The position of the first `c` in `s`. */
  function IndexOf(s: string, c: char): (k: nat)
    requires c in s
    ensures k < |s| && s[k] == c && c !in s[..k]
  {
    if s[0] == c then 0
    else
      var k := IndexOf(s[1..], c);
      assert s[..k + 1] == [s[0]] + s[1..][..k];
      k + 1
  }

  lemma {:induction false} IndexOfUnique(s: string, c: char, k: nat)
    requires k < |s| && s[k] == c && c !in s[..k]
    ensures IndexOf(s, c) == k
  {
  }

  /** `/{([^}]*)}/` matches at the start of `p`: a `{` with a `}` somewhere
      after it. */
  predicate PlaceholderAt(p: string) {
    |p| > 0 && p[0] == '{' && '}' in p[1..]
  }

  /** The length of the placeholder at the start of `p`, braces included. */
  function PlaceholderLength(p: string): (n: nat)
    requires PlaceholderAt(p)
    ensures 2 <= n <= |p|
  {
    IndexOf(p[1..], '}') + 2
  }

  /** The name inside the placeholder at the start of `p`. */
  function PlaceholderName(p: string): (name: string)
    requires PlaceholderAt(p)
    ensures '}' !in name
  {
    var k := IndexOf(p[1..], '}');
    assert p[1..k + 1] == p[1..][..k];
    p[1..k + 1]
  }

  /** `[...pattern.matchAll(/{([^}]*)}/g)].map(m => m[1])`: the placeholder
      names in pattern order. */
  function ParamNames(pattern: string): (names: seq<string>)
    decreases |pattern|
  {
    if pattern == [] then []
    else if PlaceholderAt(pattern) then
      [PlaceholderName(pattern)] + ParamNames(pattern[PlaceholderLength(pattern)..])
    else ParamNames(pattern[1..])
  }

  /** One element of the regular expression a pattern compiles to. */
  datatype Token = Lit(c: char) | Group

  function GroupCount(toks: seq<Token>): nat {
    if toks == [] then 0 else (if toks[0].Group? then 1 else 0) + GroupCount(toks[1..])
  }

  /** `new RegExp(pattern.replace(/{([^}]*)}/g, '([^/]*)'))`: each
      placeholder becomes a capture group, every other character a literal;
      there is one group per placeholder name. */
  function Compile(pattern: string): (toks: seq<Token>)
    ensures GroupCount(toks) == |ParamNames(pattern)|
    decreases |pattern|
  {
    if pattern == [] then []
    else if PlaceholderAt(pattern) then
      var toks := [Group] + Compile(pattern[PlaceholderLength(pattern)..]);
      assert toks[1..] == Compile(pattern[PlaceholderLength(pattern)..]);
      toks
    else
      var toks := [Lit(pattern[0])] + Compile(pattern[1..]);
      assert toks[1..] == Compile(pattern[1..]);
      toks
  }

  /** How far the greedy `[^/]*` reaches from `i`. */
  function RunEnd(s: string, i: nat): (j: nat)
    requires i <= |s|
    ensures i <= j <= |s| && (j == |s| || s[j] == '/')
    ensures forall k :: i <= k < j ==> s[k] != '/'
    decreases |s| - i
  {
    if i == |s| || s[i] == '/' then i else RunEnd(s, i + 1)
  }

  /** Where a match ends and what its groups captured, in order. */
  datatype MatchResult = MatchResult(end: nat, captures: seq<string>)

  /** The expression `toks` tried at position `i` of `s`, backtracking as a
      JavaScript regular expression does: a group first takes the longest
      run of non-`/` characters and gives back one character at a time
      until the rest of the expression matches. */
  function MatchAt(toks: seq<Token>, s: string, i: nat): (m: Option<MatchResult>)
    requires i <= |s|
    ensures m.Some? ==> i <= m.value.end <= |s|
    decreases |toks|, 1, 0
  {
    if toks == [] then Some(MatchResult(i, []))
    else match toks[0]
      case Lit(c) => if i < |s| && s[i] == c then MatchAt(toks[1..], s, i + 1) else None
      case Group => TryGroup(toks[1..], s, i, RunEnd(s, i))
  }

  /** A group starting at `i` captures `s[i..j]`, or a shorter run when the
      rest of the expression fails after it. */
  function TryGroup(rest: seq<Token>, s: string, i: nat, j: nat): (m: Option<MatchResult>)
    requires i <= j <= |s|
    ensures m.Some? ==> i <= m.value.end <= |s|
    decreases |rest| + 1, 0, j
  {
    match MatchAt(rest, s, j)
    case Some(m) => Some(MatchResult(m.end, [s[i..j]] + m.captures))
    case None => if j == i then None else TryGroup(rest, s, i, j - 1)
  }

  /** The leftmost match that starts at `from` or later, with its start. */
  function FirstMatch(toks: seq<Token>, s: string, from: nat): (r: Option<(nat, MatchResult)>)
    requires from <= |s| + 1
    ensures r.Some? ==> from <= r.value.0 <= r.value.1.end <= |s|
    ensures r.Some? ==> MatchAt(toks, s, r.value.0) == Some(r.value.1)
    ensures r.Some? ==> forall p :: from <= p < r.value.0 ==> MatchAt(toks, s, p).None?
    ensures r.None? ==> forall p :: from <= p <= |s| ==> MatchAt(toks, s, p).None?
    decreases |s| + 1 - from
  {
    if from > |s| then None
    else match MatchAt(toks, s, from)
      case Some(m) => Some((from, m))
      case None => FirstMatch(toks, s, from + 1)
  }

  /** `m[1]` of one match: the first capture, or `undefined` when the
      expression has no group. */
  function GroupOne(m: MatchResult): Option<string> {
    if |m.captures| > 0 then Some(m.captures[0]) else None
  }

  /** `[...s.matchAll(regex)].map(m => m[1])` for the global expression
      `toks`, searching from `from`: after a match the search resumes where
      it ended, or one position further when the match was empty. */
  function FirstGroups(toks: seq<Token>, s: string, from: nat): (vs: seq<Option<string>>)
    requires from <= |s| + 1
    decreases |s| + 1 - from
  {
    match FirstMatch(toks, s, from)
    case None => []
    case Some((p, m)) => [GroupOne(m)] + FirstGroups(toks, s, if m.end == p then m.end + 1 else m.end)
  }

  /** The text a match of `toks` spells when its groups hold `caps`. */
  function Fill(toks: seq<Token>, caps: seq<string>): string
    requires |caps| == GroupCount(toks)
  {
    if toks == [] then []
    else match toks[0]
      case Lit(c) => [c] + Fill(toks[1..], caps)
      case Group => caps[0] + Fill(toks[1..], caps[1..])
  }

  predicate NoSlash(v: string) { '/' !in v }

  /** What a successful match at `i` means: one capture per group, none of
      them containing `/`, and the matched text is the pattern with the
      captures put in place of its groups. */
  predicate MatchSpells(toks: seq<Token>, s: string, i: nat, m: MatchResult) {
    && i <= m.end <= |s|
    && |m.captures| == GroupCount(toks)
    && (forall c :: c in m.captures ==> NoSlash(c))
    && s[i..m.end] == Fill(toks, m.captures)
  }

  lemma {:induction false} MatchAtSound(toks: seq<Token>, s: string, i: nat)
    requires i <= |s| && MatchAt(toks, s, i).Some?
    ensures MatchSpells(toks, s, i, MatchAt(toks, s, i).value)
    decreases |toks|, 1, 0
  {
    if toks != [] {
      match toks[0]
      case Lit(c) =>
        MatchAtSound(toks[1..], s, i + 1);
        var m := MatchAt(toks, s, i).value;
        assert s[i..m.end] == [s[i]] + s[i + 1..m.end];
      case Group =>
        TryGroupSound(toks[1..], s, i, RunEnd(s, i));
    }
  }

  lemma {:induction false} TryGroupSound(rest: seq<Token>, s: string, i: nat, j: nat)
    requires i <= j <= |s| && TryGroup(rest, s, i, j).Some?
    requires forall k :: i <= k < j ==> s[k] != '/'
    ensures MatchSpells([Group] + rest, s, i, TryGroup(rest, s, i, j).value)
    decreases |rest| + 1, 0, j
  {
    var toks := [Group] + rest;
    assert toks[0] == Group && toks[1..] == rest;
    match MatchAt(rest, s, j)
    case Some(m) =>
      MatchAtSound(rest, s, j);
      var r := TryGroup(rest, s, i, j).value;
      assert r.captures[1..] == m.captures;
      assert s[i..r.end] == s[i..j] + s[j..m.end];
      assert NoSlash(s[i..j]) by {
        forall k | 0 <= k < j - i ensures s[i..j][k] != '/' { assert s[i..j][k] == s[i + k]; }
      }
      forall c | c in r.captures ensures NoSlash(c) {
        if c != s[i..j] { assert c in m.captures; }
      }
    case None =>
      TryGroupSound(rest, s, i, j - 1);
  }

  /** Backtracking from `j` down reaches every shorter capture at which the
      rest of the expression matches, so it cannot fail past one. */
  lemma {:induction false} TryGroupComplete(rest: seq<Token>, s: string, i: nat, j: nat, k: nat)
    requires i <= k <= j <= |s| && MatchAt(rest, s, k).Some?
    ensures TryGroup(rest, s, i, j).Some?
    decreases j
  {
    if MatchAt(rest, s, j).None? {
      TryGroupComplete(rest, s, i, j - 1, k);
    }
  }

  lemma {:induction false} SplitSlice(s: string, i: nat, e: nat, x: string, y: string)
    requires i <= e <= |s| && s[i..e] == x + y
    ensures i + |x| <= e && s[i..i + |x|] == x && s[i + |x|..e] == y
  {
    assert s[i..i + |x|] == s[i..e][..|x|];
    assert s[i + |x|..e] == s[i..e][|x|..];
  }

  /** A slash-free stretch starting at `i` lies within the greedy run. */
  lemma {:induction false} RunCovers(s: string, i: nat, j: nat)
    requires i <= j <= |s| && NoSlash(s[i..j])
    ensures j <= RunEnd(s, i)
    decreases j - i
  {
    if i < j {
      assert s[i] == s[i..j][0];
      assert s[i + 1..j] == s[i..j][1..];
      RunCovers(s, i + 1, j);
    }
  }

  /** Whenever the text at `i` spells the expression with some slash-free
      captures, the matcher finds a match at `i`: the converse of
      `MatchAtSound`. */
  lemma {:induction false} MatchAtComplete(toks: seq<Token>, s: string, i: nat, m: MatchResult)
    requires MatchSpells(toks, s, i, m)
    ensures MatchAt(toks, s, i).Some?
    decreases |toks|
  {
    if toks != [] {
      var text := s[i..m.end];
      match toks[0]
      case Lit(c) =>
        assert text == [c] + Fill(toks[1..], m.captures);
        SplitSlice(s, i, m.end, [c], Fill(toks[1..], m.captures));
        assert s[i] == s[i..i + 1][0];
        MatchAtComplete(toks[1..], s, i + 1, m);
      case Group =>
        var cap, caps := m.captures[0], m.captures[1..];
        assert text == cap + Fill(toks[1..], caps);
        var k := i + |cap|;
        SplitSlice(s, i, m.end, cap, Fill(toks[1..], caps));
        assert cap in m.captures;
        RunCovers(s, i, k);
        assert forall c :: c in caps ==> c in m.captures;
        MatchAtComplete(toks[1..], s, k, MatchResult(m.end, caps));
        TryGroupComplete(toks[1..], s, i, RunEnd(s, i), k);
    }
  }

  /** A search from `from` finds a match no later than any position at or
      after `from` where the text spells the expression: so `FirstMatch`
      being `None` means the pathname holds no spelling of the pattern. */
  lemma {:induction false} FirstMatchComplete(toks: seq<Token>, s: string, from: nat, i: nat, m: MatchResult)
    requires from <= i && MatchSpells(toks, s, i, m)
    ensures FirstMatch(toks, s, from).Some? && FirstMatch(toks, s, from).value.0 <= i
  {
    MatchAtComplete(toks, s, i, m);
  }

  /** Every value `matchAll` collects lies inside a single path segment. */
  lemma {:induction false} FirstGroupsNoSlash(toks: seq<Token>, s: string, from: nat)
    requires from <= |s| + 1
    ensures forall v :: v in FirstGroups(toks, s, from) && v.Some? ==> NoSlash(v.value)
    decreases |s| + 1 - from
  {
    match FirstMatch(toks, s, from)
    case None =>
    case Some((p, m)) =>
      MatchAtSound(toks, s, p);
      var next := if m.end == p then m.end + 1 else m.end;
      FirstGroupsNoSlash(toks, s, next);
      assert FirstGroups(toks, s, from) == [GroupOne(m)] + FirstGroups(toks, s, next);
      if |m.captures| > 0 { assert m.captures[0] in m.captures; }
  }

  /** Without any match from `from` on there are no values at all. */
  lemma {:induction false} NoMatchNoValues(toks: seq<Token>, s: string, from: nat)
    requires from <= |s| + 1 && FirstMatch(toks, s, from).None?
    ensures FirstGroups(toks, s, from) == []
  {
  }

  // ---------------------------------------------------------------------
  // Patterns built from literal text and placeholder names

  /** `lits[0] {names[0]} lits[1] ... {names[n-1]} lits[n]`. */
  function Braced(lits: seq<string>, names: seq<string>): string
    requires |lits| == |names| + 1
    decreases |names|
  {
    if names == [] then lits[0]
    else lits[0] + "{" + names[0] + "}" + Braced(lits[1..], names[1..])
  }

  /** The same route in the `:name` syntax of Express and Fastify. */
  function Coloned(lits: seq<string>, names: seq<string>): string
    requires |lits| == |names| + 1
    decreases |names|
  {
    if names == [] then lits[0]
    else lits[0] + ":" + names[0] + Coloned(lits[1..], names[1..])
  }

  predicate PlainText(lit: string) { '{' !in lit }

  /** The literal parts are free of `{`, the names free of `}`. */
  predicate WellBraced(lits: seq<string>, names: seq<string>) {
    && |lits| == |names| + 1
    && (forall i :: 0 <= i < |lits| ==> PlainText(lits[i]))
    && (forall i :: 0 <= i < |names| ==> '}' !in names[i])
  }

  /** `path.replace(/{([^}]+)}/g, ':$1')`: non-empty placeholders become
      `:name`; `{}` is left alone. */
  function ColonPattern(p: string): string
    decreases |p|
  {
    if p == [] then []
    else if PlaceholderAt(p) && p[1] != '}' then
      ":" + PlaceholderName(p) + ColonPattern(p[PlaceholderLength(p)..])
    else [p[0]] + ColonPattern(p[1..])
  }

  lemma {:induction false} PlaceholderSplit(name: string, rest: string)
    requires '}' !in name
    ensures var p := "{" + name + "}" + rest;
      PlaceholderAt(p) && PlaceholderName(p) == name
      && PlaceholderLength(p) == |name| + 2 && p[|name| + 2..] == rest
  {
    var p := "{" + name + "}" + rest;
    var t := p[1..];
    assert t == name + "}" + rest;
    assert t[..|name|] == name;
    assert t[|name|] == '}';
    IndexOfUnique(t, '}', |name|);
    assert p[1..|name| + 1] == name;
  }

  lemma {:induction false} ParamNamesSkipsText(lit: string, rest: string)
    requires PlainText(lit)
    ensures ParamNames(lit + rest) == ParamNames(rest)
    decreases |lit|
  {
    if lit != [] {
      var p := lit + rest;
      assert p[0] == lit[0] && p[1..] == lit[1..] + rest;
      assert lit[0] in lit;
      assert !PlaceholderAt(p);
      assert PlainText(lit[1..]) by { assert forall x :: x in lit[1..] ==> x in lit; }
      ParamNamesSkipsText(lit[1..], rest);
    } else {
      assert lit + rest == rest;
    }
  }

  /** Reading the names back out of a pattern gives the names it was built
      from, in order. */
  lemma {:induction false} ParamNamesBraced(lits: seq<string>, names: seq<string>)
    requires WellBraced(lits, names)
    ensures ParamNames(Braced(lits, names)) == names
    decreases |names|
  {
    if names != [] {
      var rest := Braced(lits[1..], names[1..]);
      assert Braced(lits, names) == lits[0] + ("{" + names[0] + "}" + rest);
      ParamNamesSkipsText(lits[0], "{" + names[0] + "}" + rest);
      PlaceholderSplit(names[0], rest);
      ParamNamesBraced(lits[1..], names[1..]);
    } else {
      ParamNamesSkipsText(lits[0], "");
      assert lits[0] + "" == lits[0];
    }
  }

  lemma {:induction false} ColonSkipsText(lit: string, rest: string)
    requires PlainText(lit)
    ensures ColonPattern(lit + rest) == lit + ColonPattern(rest)
    decreases |lit|
  {
    if lit != [] {
      var p := lit + rest;
      assert p[0] == lit[0] && p[1..] == lit[1..] + rest;
      assert lit[0] in lit;
      assert !PlaceholderAt(p);
      assert PlainText(lit[1..]) by { assert forall x :: x in lit[1..] ==> x in lit; }
      ColonSkipsText(lit[1..], rest);
      assert lit == [lit[0]] + lit[1..];
    } else {
      assert lit + rest == rest;
    }
  }

  lemma {:induction false} ColonPlaceholder(name: string, rest: string)
    requires '}' !in name && name != ""
    ensures ColonPattern("{" + name + "}" + rest) == ":" + name + ColonPattern(rest)
  {
    var p := "{" + name + "}" + rest;
    PlaceholderSplit(name, rest);
    assert p[1] == name[0];
  }

  lemma {:induction false} WellBracedTail(lits: seq<string>, names: seq<string>)
    requires WellBraced(lits, names) && names != []
    ensures WellBraced(lits[1..], names[1..])
  {
    assert forall i :: 0 <= i < |lits| - 1 ==> lits[1..][i] == lits[i + 1];
    assert forall i :: 0 <= i < |names| - 1 ==> names[1..][i] == names[i + 1];
  }

  /** The adapters' rewrite turns every non-empty `{name}` into `:name` and
      leaves the literal text as it is. */
  lemma {:induction false} ColonPatternBraced(lits: seq<string>, names: seq<string>)
    requires WellBraced(lits, names)
    requires forall i :: 0 <= i < |names| ==> names[i] != ""
    ensures ColonPattern(Braced(lits, names)) == Coloned(lits, names)
    decreases |names|
  {
    if names != [] {
      var rest := Braced(lits[1..], names[1..]);
      var p := "{" + names[0] + "}" + rest;
      assert Braced(lits, names) == lits[0] + p;
      ColonSkipsText(lits[0], p);
      ColonPlaceholder(names[0], rest);
      WellBracedTail(lits, names);
      ColonPatternBraced(lits[1..], names[1..]);
      assert Coloned(lits, names) == lits[0] + (":" + names[0] + Coloned(lits[1..], names[1..]));
    } else {
      ColonSkipsText(lits[0], "");
      assert lits[0] + "" == lits[0];
    }
  }

  // ---------------------------------------------------------------------
  // Matching patterns whose placeholders each fill a whole path segment

  /** The tokens of text taken literally. */
  function LitTokens(lit: string): (toks: seq<Token>)
    ensures |toks| == |lit|
  {
    if lit == [] then [] else [Lit(lit[0])] + LitTokens(lit[1..])
  }

  lemma {:induction false} CompileSkipsText(lit: string, rest: string)
    requires PlainText(lit)
    ensures Compile(lit + rest) == LitTokens(lit) + Compile(rest)
    decreases |lit|
  {
    if lit != [] {
      var p := lit + rest;
      assert p[0] == lit[0] && p[1..] == lit[1..] + rest;
      assert lit[0] in lit;
      assert !PlaceholderAt(p);
      assert PlainText(lit[1..]) by { assert forall x :: x in lit[1..] ==> x in lit; }
      CompileSkipsText(lit[1..], rest);
      assert Compile(p) == [Lit(lit[0])] + Compile(lit[1..] + rest);
      assert LitTokens(lit) + Compile(rest) == [Lit(lit[0])] + (LitTokens(lit[1..]) + Compile(rest));
    } else {
      assert lit + rest == rest;
    }
  }

  lemma {:induction false} CompilePlaceholder(name: string, rest: string)
    requires '}' !in name
    ensures Compile("{" + name + "}" + rest) == [Group] + Compile(rest)
  {
    PlaceholderSplit(name, rest);
  }

  /** Literal text is matched character by character. */
  lemma {:induction false} MatchLiteral(lit: string, rest: seq<Token>, s: string, i: nat)
    requires i + |lit| <= |s| && s[i..i + |lit|] == lit
    ensures MatchAt(LitTokens(lit) + rest, s, i) == MatchAt(rest, s, i + |lit|)
    decreases |lit|
  {
    if lit != [] {
      var toks := LitTokens(lit) + rest;
      assert toks == [Lit(lit[0])] + (LitTokens(lit[1..]) + rest);
      assert s[i] == s[i..i + |lit|][0];
      assert toks[1..] == LitTokens(lit[1..]) + rest;
      assert s[i + 1..i + 1 + |lit[1..]|] == s[i..i + |lit|][1..];
      MatchLiteral(lit[1..], rest, s, i + 1);
    } else {
      assert LitTokens(lit) + rest == rest;
    }
  }

  /** A group whose longest run is followed by a match of the rest keeps
      that whole run. */
  lemma {:induction false} MatchGroupGreedy(rest: seq<Token>, s: string, i: nat)
    requires i <= |s| && MatchAt(rest, s, RunEnd(s, i)).Some?
    ensures var j := RunEnd(s, i);
      MatchAt([Group] + rest, s, i)
        == Some(MatchResult(MatchAt(rest, s, j).value.end, [s[i..j]] + MatchAt(rest, s, j).value.captures))
  {
    var toks := [Group] + rest;
    assert toks[0] == Group && toks[1..] == rest;
  }

  /** A group at the end of the pattern takes the whole run. */
  lemma {:induction false} MatchFinalGroup(s: string, i: nat)
    requires i <= |s|
    ensures MatchAt([Group], s, i) == Some(MatchResult(RunEnd(s, i), [s[i..RunEnd(s, i)]]))
  {
    var toks: seq<Token> := [Group];
    assert toks[1..] == [];
    var j := RunEnd(s, i);
    assert MatchAt(toks[1..], s, j) == Some(MatchResult(j, []));
    assert [s[i..j]] + [] == [s[i..j]];
  }

  lemma {:induction false} RunToEnd(s: string, i: nat)
    requires i <= |s| && NoSlash(s[i..])
    ensures RunEnd(s, i) == |s|
  {
    var j := RunEnd(s, i);
  }

  lemma {:induction false} RunToSlash(s: string, i: nat, j: nat)
    requires i <= j < |s| && NoSlash(s[i..j]) && s[j] == '/'
    ensures RunEnd(s, i) == j
  {
    var e := RunEnd(s, i);
  }

  /** No match can start at the end of the path when the pattern begins
      with literal text. */
  lemma {:induction false} NoMatchAtEnd(toks: seq<Token>, s: string)
    requires |toks| > 0 && toks[0].Lit?
    ensures FirstGroups(toks, s, |s|) == []
  {
    assert MatchAt(toks, s, |s|).None?;
    assert FirstMatch(toks, s, |s| + 1).None?;
  }

  /** `prefix{name}` against `prefix` followed by one segment: one match,
      whose group holds the whole segment. */
  lemma {:induction false} OneSegmentMatch(prefix: string, name: string, id: string)
    requires PlainText(prefix) && prefix != [] && '}' !in name && NoSlash(id)
    ensures ParamNames(prefix + "{" + name + "}") == [name]
    ensures FirstGroups(Compile(prefix + "{" + name + "}"), prefix + id, 0) == [Some(id)]
  {
    var lits, names, vals := [prefix, ""], [name], [id];
    assert lits[1..] == [""] && names[1..] == [] && vals[1..] == [];
    assert Braced(lits, names) == prefix + "{" + name + "}";
    assert Spelled(lits, vals) == prefix + id;
    ParamNamesBraced(lits, names);
    WholeSegmentValues(lits, names, vals);
  }

  /** `p0{n0}p1{n1}` against `p0 x p1 y`, where `p1` starts a new segment:
      one match, holding both segments, so only the first group of that
      single match is collected. */
  lemma {:induction false} TwoSegmentMatch(p0: string, n0: string, p1: string, n1: string, x: string, y: string)
    requires PlainText(p0) && p0 != [] && PlainText(p1) && p1 != [] && p1[0] == '/'
    requires '}' !in n0 && '}' !in n1 && NoSlash(x) && NoSlash(y)
    ensures ParamNames(p0 + "{" + n0 + "}" + p1 + "{" + n1 + "}") == [n0, n1]
    ensures FirstGroups(Compile(p0 + "{" + n0 + "}" + p1 + "{" + n1 + "}"), p0 + x + p1 + y, 0) == [Some(x)]
  {
    var lits, names, vals := [p0, p1, ""], [n0, n1], [x, y];
    assert lits[1..] == [p1, ""] && names[1..] == [n1] && vals[1..] == [y];
    assert lits[1..][1..] == [""] && names[1..][1..] == [] && vals[1..][1..] == [];
    assert Braced(lits[1..], names[1..]) == p1 + "{" + n1 + "}" + "";
    assert Braced(lits, names) == p0 + "{" + n0 + "}" + p1 + "{" + n1 + "}";
    assert Spelled(lits[1..], vals[1..]) == p1 + y + "";
    assert Spelled(lits, vals) == p0 + x + p1 + y;
    ParamNamesBraced(lits, names);
    WholeSegmentValues(lits, names, vals);
  }

  // ---------------------------------------------------------------------
  // Any number of whole-segment placeholders

  /** The tokens `Compile` gives `Braced(lits, names)` for `n` names. */
  function BracedTokens(lits: seq<string>, n: nat): seq<Token>
    requires |lits| == n + 1
    decreases n
  {
    if n == 0 then LitTokens(lits[0])
    else LitTokens(lits[0]) + ([Group] + BracedTokens(lits[1..], n - 1))
  }

  /** The pathname that puts `vals` where the placeholders stand. */
  function Spelled(lits: seq<string>, vals: seq<string>): string
    requires |lits| == |vals| + 1
    decreases |vals|
  {
    if vals == [] then lits[0]
    else lits[0] + vals[0] + Spelled(lits[1..], vals[1..])
  }

  /** Each placeholder fills a whole segment: every literal after the first
      starts a new segment, except that the last may be empty. */
  predicate SegmentLits(lits: seq<string>) {
    forall i :: 1 <= i < |lits| ==> (lits[i] != [] && lits[i][0] == '/') || (i == |lits| - 1 && lits[i] == [])
  }

  lemma {:induction false} CompileBraced(lits: seq<string>, names: seq<string>)
    requires WellBraced(lits, names)
    ensures Compile(Braced(lits, names)) == BracedTokens(lits, |names|)
    decreases |names|
  {
    if names == [] {
      CompileSkipsText(lits[0], "");
      assert lits[0] + "" == lits[0];
      assert LitTokens(lits[0]) + [] == LitTokens(lits[0]);
    } else {
      var rest := Braced(lits[1..], names[1..]);
      assert Braced(lits, names) == lits[0] + ("{" + names[0] + "}" + rest);
      CompileSkipsText(lits[0], "{" + names[0] + "}" + rest);
      CompilePlaceholder(names[0], rest);
      CompileBraced(lits[1..], names[1..]);
    }
  }

  lemma {:induction false} SegmentLitsTail(lits: seq<string>)
    requires |lits| >= 1 && SegmentLits(lits)
    ensures SegmentLits(lits[1..])
  {
    forall i | 1 <= i < |lits[1..]|
      ensures (lits[1..][i] != [] && lits[1..][i][0] == '/') || (i == |lits[1..]| - 1 && lits[1..][i] == [])
    {
      assert lits[1..][i] == lits[i + 1];
    }
  }

  /** A group over a slash-free segment that ends at `/` or at the end of
      the pathname, followed by a match of the rest from there. */
  lemma {:induction false} MatchSegment(rest: seq<Token>, s: string, a: nat, b: nat, caps: seq<string>)
    requires a <= b <= |s| && NoSlash(s[a..b]) && (b == |s| || s[b] == '/')
    requires MatchAt(rest, s, b) == Some(MatchResult(|s|, caps))
    ensures MatchAt([Group] + rest, s, a) == Some(MatchResult(|s|, [s[a..b]] + caps))
  {
    if b == |s| {
      assert s[a..] == s[a..b];
      RunToEnd(s, a);
    } else {
      RunToSlash(s, a, b);
    }
    MatchGroupGreedy(rest, s, a);
  }

  /** After the first value, the spelled pathname ends or starts a new
      segment. */
  lemma {:induction false} SegmentEnds(lits: seq<string>, vals: seq<string>)
    requires |lits| == |vals| + 1 && |vals| >= 1 && SegmentLits(lits)
    ensures var tail := Spelled(lits[1..], vals[1..]);
      tail == [] || tail[0] == '/'
  {
    var tail := Spelled(lits[1..], vals[1..]);
    if lits[1] != [] && lits[1][0] == '/' {
      if vals[1..] != [] {
        assert tail == lits[1] + vals[1] + Spelled(lits[2..], vals[2..]);
      }
    } else {
      assert vals[1..] == [];
    }
  }

  /** Matched right after `head`, the tokens consume the whole spelled
      pathname, and each group captures exactly its own segment value. */
  lemma {:induction false} MatchSpelled(lits: seq<string>, vals: seq<string>, head: string)
    requires |lits| == |vals| + 1 && SegmentLits(lits)
    requires forall i :: 0 <= i < |vals| ==> NoSlash(vals[i])
    ensures var s := head + Spelled(lits, vals);
      MatchAt(BracedTokens(lits, |vals|), s, |head|) == Some(MatchResult(|s|, vals))
    decreases |vals|
  {
    if vals == [] {
      MatchLiteralOnly(lits[0], head);
    } else {
      var next := head + lits[0] + vals[0];
      SegmentLitsTail(lits);
      MatchSpelled(lits[1..], vals[1..], next);
      SegmentEnds(lits, vals);
      var rest := BracedTokens(lits[1..], |vals| - 1);
      var tail := Spelled(lits[1..], vals[1..]);
      MatchLitThenSegment(lits[0], rest, head, vals[0], tail, vals[1..]);
      SpelledStep(lits, vals, head);
    }
  }

  lemma {:induction false} MatchLiteralOnly(lit: string, head: string)
    ensures MatchAt(LitTokens(lit), head + lit, |head|) == Some(MatchResult(|head + lit|, []))
  {
    var s := head + lit;
    assert s[|head|..|head| + |lit|] == lit;
    MatchLiteral(lit, [], s, |head|);
    assert LitTokens(lit) + [] == LitTokens(lit);
  }

  /** One step of `BracedTokens` and `Spelled` together. */
  lemma {:induction false} SpelledStep(lits: seq<string>, vals: seq<string>, head: string)
    requires |lits| == |vals| + 1 && |vals| >= 1
    ensures BracedTokens(lits, |vals|) == LitTokens(lits[0]) + ([Group] + BracedTokens(lits[1..], |vals| - 1))
    ensures head + Spelled(lits, vals) == head + lits[0] + vals[0] + Spelled(lits[1..], vals[1..])
    ensures head + lits[0] + vals[0] + Spelled(lits[1..], vals[1..])
         == (head + lits[0] + vals[0]) + Spelled(lits[1..], vals[1..])
    ensures [vals[0]] + vals[1..] == vals
  {
  }

  lemma {:induction false} Slices(head: string, lit: string, v: string, tail: string)
    ensures var s := head + lit + v + tail;
      var a := |head| + |lit|;
      && s[|head|..a] == lit && s[a..a + |v|] == v
      && (tail == [] ==> a + |v| == |s|)
      && (tail != [] ==> s[a + |v|] == tail[0])
  {
    var s := head + lit + v + tail;
    assert s == (head + lit + v) + tail;
    assert s[..|head| + |lit| + |v|] == head + lit + v;
  }

  /** Literal text, then a group over the slash-free value `v` that ends
      its segment, then a match of the remaining tokens. */
  lemma {:induction false} MatchLitThenSegment(lit: string, rest: seq<Token>, head: string, v: string, tail: string, caps: seq<string>)
    requires NoSlash(v) && (tail == [] || tail[0] == '/')
    requires var s := head + lit + v + tail;
      MatchAt(rest, s, |head| + |lit| + |v|) == Some(MatchResult(|s|, caps))
    ensures var s := head + lit + v + tail;
      MatchAt(LitTokens(lit) + ([Group] + rest), s, |head|) == Some(MatchResult(|s|, [v] + caps))
  {
    var s := head + lit + v + tail;
    var a := |head| + |lit|;
    Slices(head, lit, v, tail);
    MatchLiteral(lit, [Group] + rest, s, |head|);
    MatchSegment(rest, s, a, a + |v|, caps);
  }

  /** A pattern with one or more whole-segment placeholders, against a
      pathname that spells it: the whole path is one match, so the list of
      values holds only the first segment's value, however many
      placeholders there are. */
  lemma {:induction false} WholeSegmentValues(lits: seq<string>, names: seq<string>, vals: seq<string>)
    requires WellBraced(lits, names) && SegmentLits(lits) && lits[0] != []
    requires |vals| == |names| >= 1
    requires forall i :: 0 <= i < |vals| ==> NoSlash(vals[i])
    ensures FirstGroups(Compile(Braced(lits, names)), Spelled(lits, vals), 0) == [Some(vals[0])]
  {
    var s := Spelled(lits, vals);
    CompileBraced(lits, names);
    var toks := BracedTokens(lits, |names|);
    MatchSpelled(lits, vals, "");
    assert "" + s == s;
    assert toks[0] == Lit(lits[0][0]);
    NoMatchAtEnd(toks, s);
  }
}
