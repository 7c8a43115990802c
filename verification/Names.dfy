/** When two presentation items are the same role under SketchUp's numbered copies of a name. */
module Names {
  import opened Basics

  /** unicode.IsSpace */
  predicate Space(c: char) {
    || c in {'\t', '\n', '\U{0B}', '\U{0C}', '\r', ' ', '\U{85}', '\U{A0}', '\U{1680}',
             '\U{2028}', '\U{2029}', '\U{202F}', '\U{205F}', '\U{3000}'}
    || '\U{2000}' <= c <= '\U{200A}'
  }

  function TrimLeft(s: string): string {
    if s != "" && Space(s[0]) then TrimLeft(s[1..]) else s
  }

  function TrimRight(s: string): string {
    if s != "" && Space(s[|s| - 1]) then TrimRight(s[..|s| - 1]) else s
  }

  function Trim(s: string): string {
    TrimRight(TrimLeft(s))
  }

  predicate AllDigits(s: string) {
    forall i :: 0 <= i < |s| ==> '0' <= s[i] <= '9'
  }

  predicate Digits(s: string) {
    s != "" && AllDigits(s)
  }

  function Value(s: string): int
    requires AllDigits(s)
  {
    if s == "" then 0 else 10 * Value(s[..|s| - 1]) + (s[|s| - 1] as int - '0' as int)
  }

  /** strconv.Atoi succeeds with a positive 64-bit value. */
  predicate PositiveNumber(s: string) {
    var digits := if s != "" && s[0] == '+' then s[1..] else s;
    Digits(digits) && 0 < Value(digits) < 0x8000_0000_0000_0000
  }

  predicate Parenthesised(s: string) {
    |s| >= 2 && s[0] == '(' && s[|s| - 1] == ')'
  }

  /** duplicatePresentationName: the candidate is the base followed by a positive number, perhaps in parentheses. */
  predicate Duplicate(base: string, candidate: string) {
    && base < candidate
    && var suffix := Trim(candidate[|base|..]);
    && suffix != ""
    && PositiveNumber(if Parenthesised(suffix) then Trim(suffix[1..|suffix| - 1]) else suffix)
  }

  /** Exactly one item bears the name, and none is a numbered copy of it. */
  ghost predicate Sole(names: seq<string>, wanted: string, i: nat) {
    && i < |names| && names[i] == wanted
    && forall j :: 0 <= j < |names| && j != i ==> names[j] != wanted && !Duplicate(wanted, names[j])
  }

  /** No item bears the name or is a numbered copy of it. */
  ghost predicate Absent(names: seq<string>, wanted: string) {
    forall j :: 0 <= j < |names| ==> names[j] != wanted && !Duplicate(wanted, names[j])
  }

  datatype Search = Found(index: nat) | Missing | Ambiguous

  /** findReusablePresentationItem: reuse the one item of the name, create it if there is none, refuse anything else. */
  method FindReusable(names: seq<string>, wanted: string) returns (r: Search)
    ensures r.Found? ==> Sole(names, wanted, r.index)
    ensures r.Missing? <==> Absent(names, wanted)
    ensures r.Ambiguous? ==> !Absent(names, wanted) && forall i: nat :: !Sole(names, wanted, i)
  {
    var exact: Option<nat> := None;
    var conflicts := 0;
    for k := 0 to |names|
      invariant match exact
                case None => forall j :: 0 <= j < k ==> names[j] != wanted
                case Some(i) => i < k && names[i] == wanted && forall j :: 0 <= j < i ==> names[j] != wanted
      invariant conflicts == 0 ==>
                  forall j :: 0 <= j < k && exact != Some(j) ==> names[j] != wanted && !Duplicate(wanted, names[j])
      invariant conflicts > 0 ==>
                  exists j :: 0 <= j < k && exact != Some(j) && (names[j] == wanted || Duplicate(wanted, names[j]))
    {
      if names[k] == wanted {
        if exact.Some? { conflicts := conflicts + 1; } else { exact := Some(k); }
      } else if Duplicate(wanted, names[k]) {
        conflicts := conflicts + 1;
      }
    }
    if conflicts == 0 { return if exact.Some? then Found(exact.value) else Missing; }
    return Ambiguous;
  }

  lemma {:induction false} SoleUnique(names: seq<string>, wanted: string, i: nat, j: nat)
    requires Sole(names, wanted, i) && Sole(names, wanted, j)
    ensures i == j
  {
  }

  lemma {:induction false} AbsentThenSole(names: seq<string>, wanted: string)
    requires Absent(names, wanted)
    ensures Sole(names + [wanted], wanted, |names|)
  {
  }

  // ---------- which names are numbered copies ----------

  predicate Spaces(s: string) {
    forall i :: 0 <= i < |s| ==> Space(s[i])
  }

  /** Nothing to trim at either end. */
  predicate Tight(s: string) {
    s != "" && !Space(s[0]) && !Space(s[|s| - 1])
  }

  lemma {:induction false} TrimLeftSplit(s: string) returns (a: string)
    ensures Spaces(a) && s == a + TrimLeft(s) && (TrimLeft(s) != "" ==> !Space(TrimLeft(s)[0]))
  {
    a := "";
    if s != "" && Space(s[0]) {
      var rest := TrimLeftSplit(s[1..]);
      a := [s[0]] + rest;
      assert s == [s[0]] + s[1..];
    }
  }

  lemma {:induction false} TrimRightSplit(s: string) returns (b: string)
    ensures Spaces(b) && s == TrimRight(s) + b && (TrimRight(s) != "" ==> !Space(TrimRight(s)[|TrimRight(s)| - 1]))
    decreases |s|
  {
    b := "";
    if s != "" && Space(s[|s| - 1]) {
      var rest := TrimRightSplit(s[..|s| - 1]);
      b := rest + [s[|s| - 1]];
      assert s == s[..|s| - 1] + [s[|s| - 1]];
    }
  }

  lemma {:induction false} TrimSplit(s: string) returns (a: string, b: string)
    ensures Spaces(a) && Spaces(b) && s == a + Trim(s) + b && (Trim(s) != "" ==> Tight(Trim(s)))
  {
    a := TrimLeftSplit(s);
    b := TrimRightSplit(TrimLeft(s));
    assert s == a + (Trim(s) + b);
    if Trim(s) != "" { assert TrimLeft(s)[0] == Trim(s)[0]; }
  }

  lemma {:induction false} TrimLeftJoin(a: string, t: string)
    requires Spaces(a) && t != "" && !Space(t[0])
    ensures TrimLeft(a + t) == t
  {
    if a == "" {
      assert a + t == t;
    } else {
      assert (a + t)[0] == a[0] && (a + t)[1..] == a[1..] + t;
      TrimLeftJoin(a[1..], t);
    }
  }

  lemma {:induction false} TrimRightJoin(t: string, b: string)
    requires Spaces(b) && t != "" && !Space(t[|t| - 1])
    ensures TrimRight(t + b) == t
    decreases |b|
  {
    if b == "" {
      assert t + b == t;
    } else {
      var last := |b| - 1;
      assert (t + b)[|t + b| - 1] == b[last] && (t + b)[..|t + b| - 1] == t + b[..last];
      TrimRightJoin(t, b[..last]);
    }
  }

  lemma {:induction false} TrimJoin(a: string, t: string, b: string)
    requires Spaces(a) && Spaces(b) && Tight(t)
    ensures Trim(a + t + b) == t
  {
    assert a + t + b == a + (t + b) && (t + b)[0] == t[0];
    TrimLeftJoin(a, t + b);
    TrimRightJoin(t, b);
  }

  lemma {:induction false} DigitsAreTight(s: string)
    requires PositiveNumber(s)
    ensures Tight(s) && !Parenthesised(s)
  {
    if s[0] == '+' { assert s[1..][|s| - 2] == s[|s| - 1]; }
  }

  /** A positive number in parentheses, perhaps with spaces inside them. */
  predicate Wrapped(body: string, c: string, x: string, d: string) {
    Spaces(c) && Spaces(d) && body == "(" + (c + x + d) + ")" && PositiveNumber(x)
  }

  /** The base, spaces, a positive number that may be in parentheses, spaces. */
  ghost predicate CopyAs(base: string, candidate: string, a: string, body: string, b: string) {
    && Spaces(a) && Spaces(b) && candidate == base + (a + body + b)
    && (PositiveNumber(body) || exists c, x, d :: Wrapped(body, c, x, d))
  }

  lemma {:induction false} Inside(inner: string)
    ensures var body := "(" + inner + ")"; Parenthesised(body) && Tight(body) && body[1..|body| - 1] == inner
  {
  }

  lemma {:induction false} Around(body: string)
    requires Parenthesised(body)
    ensures body == "(" + body[1..|body| - 1] + ")"
  {
  }

  lemma {:induction false} CopyIsDuplicate(base: string, candidate: string, a: string, body: string, b: string)
    requires CopyAs(base, candidate, a, body, b)
    ensures Duplicate(base, candidate)
  {
    if PositiveNumber(body) {
      DigitsAreTight(body);
    } else {
      var c, x, d :| Wrapped(body, c, x, d);
      Inside(c + x + d);
      DigitsAreTight(x);
      TrimJoin(c, x, d);
    }
    var suffix := a + body + b;
    assert candidate[|base|..] == suffix && candidate[..|base|] == base;
    TrimJoin(a, body, b);
  }

  lemma {:induction false} WrapNumber(body: string)
    requires Parenthesised(body) && PositiveNumber(Trim(body[1..|body| - 1]))
    ensures exists c, x, d :: Wrapped(body, c, x, d)
  {
    var inner := body[1..|body| - 1];
    var c, d := TrimSplit(inner);
    Around(body);
    assert Wrapped(body, c, Trim(inner), d);
  }

  /** One name is a numbered copy of another exactly if it has one of these two forms. */
  lemma {:induction false} DuplicateIff(base: string, candidate: string)
    ensures Duplicate(base, candidate) <==> exists a, body, b :: CopyAs(base, candidate, a, body, b)
  {
    if Duplicate(base, candidate) {
      var suffix := candidate[|base|..];
      var body := Trim(suffix);
      var a, b := TrimSplit(suffix);
      if Parenthesised(body) { WrapNumber(body); }
      assert candidate == base + suffix;
      assert CopyAs(base, candidate, a, body, b);
    }
    if a, body, b :| CopyAs(base, candidate, a, body, b) { CopyIsDuplicate(base, candidate, a, body, b); }
  }

  /** Names that differ may still conflict: the second is taken for a numbered copy of the first. */
  lemma {:induction false} NumberedNamesConflict()
    ensures "Plan" != "Plan (2)" && Duplicate("Plan", "Plan (2)")
  {
    var candidate := "Plan (2)";
    assert candidate[..4] == "Plan" && candidate[4..] == " (2)";
    assert " (2)"[1..] == "(2)";
    assert TrimLeft(" (2)") == "(2)" && TrimRight("(2)") == "(2)";
    assert "(2)"[1..2] == "2" && TrimLeft("2") == "2" && TrimRight("2") == "2";
    assert "2"[..0] == "" && Value("2") == 2;
  }
}
