/**
 * The CEP (Brazilian postal code) value object of shared/domain/valueObjects/cep.go.
 *
 * `NewCep` trims surrounding white space, accepts exactly the strings that match
 * `^\d{5}-\d{3}$` or `^\d{8}$` (Go's RE2 `\d` is the ASCII digit class), and rewrites
 * the eight-digit form into the dashed form.
 */
module CepValueObject {
  import opened Wrappers

  /** Go's `type Cep string`: any string, including the empty one returned on rejection. */
  datatype Cep = Cep(value: string) {

    /** `Cep.String()`: the underlying string; wrapping it again gives back the same value. */
    function String(): (s: string)
      ensures Cep(s) == this
    {
      value
    }
  }

  /** What `NewCep` returns: Go's `(Cep, error)` pair, the error being its text. */
  datatype CepResult = CepResult(cep: Cep, err: Option<string>)

  const InvalidCepMessage: string := "CEP inválido"

  // ---------------------------------------------------------------------------
  // strings.TrimSpace
  // ---------------------------------------------------------------------------

  /** Go's `unicode.IsSpace`: the Unicode White_Space property. */
  predicate IsSpace(c: char) {
    || ('\t' <= c <= '\r')
    || c == ' '
    || c == '\U{85}'
    || c == '\U{A0}'
    || c == '\U{1680}'
    || ('\U{2000}' <= c <= '\U{200A}')
    || c == '\U{2028}'
    || c == '\U{2029}'
    || c == '\U{202F}'
    || c == '\U{205F}'
    || c == '\U{3000}'
  }

  predicate AllSpace(s: string) {
    forall i | 0 <= i < |s| :: IsSpace(s[i])
  }

  lemma AllSpaceConcat(a: string, b: string)
    requires AllSpace(a) && AllSpace(b)
    ensures AllSpace(a + b)
  {
    forall i | 0 <= i < |a + b| ensures IsSpace((a + b)[i]) {
      if i < |a| { assert (a + b)[i] == a[i]; } else { assert (a + b)[i] == b[i - |a|]; }
    }
  }

  /** Drops leading white space: the result is the suffix of `s` after its longest white prefix. */
  function TrimLeft(s: string): (r: string)
    ensures |r| <= |s| && r == s[|s| - |r|..]
    ensures AllSpace(s[..|s| - |r|])
    ensures r == [] || !IsSpace(r[0])
  {
    if s != [] && IsSpace(s[0]) then
      var t := s[1..];
      var r := TrimLeft(t);
      var k := |t| - |r|;
      assert t[k..] == s[k + 1..];
      assert s[..k + 1] == [s[0]] + t[..k];
      AllSpaceConcat([s[0]], t[..k]);
      r
    else
      s
  }

  /** Drops trailing white space: the result is the prefix of `s` before its longest white suffix. */
  function TrimRight(s: string): (r: string)
    ensures |r| <= |s| && r == s[..|r|]
    ensures AllSpace(s[|r|..])
    ensures r == [] || !IsSpace(r[|r| - 1])
  {
    if s != [] && IsSpace(s[|s| - 1]) then
      var s' := s[..|s| - 1];
      var r := TrimRight(s');
      assert s[|r|..] == s'[|r|..] + [s[|s| - 1]];
      AllSpaceConcat(s'[|r|..], [s[|s| - 1]]);
      r
    else
      s
  }

  /** `r` is the slice `s[a..b]` of `s`, and `s` holds only white space outside it. */
  predicate IsTrimmedSlice(s: string, r: string, a: int, b: int) {
    0 <= a <= b <= |s| && r == s[a..b] && AllSpace(s[..a]) && AllSpace(s[b..])
  }

  /** `r` is `s` with some white space removed from each end. */
  ghost predicate IsTrimOf(s: string, r: string) {
    exists a, b :: IsTrimmedSlice(s, r, a, b)
  }

  /** `strings.TrimSpace`: a contiguous slice of `s`, white space only outside it,
    * and neither end of a non-empty result is white space. */
  function TrimSpace(s: string): (r: string)
    ensures IsTrimOf(s, r)
    ensures r == [] || (!IsSpace(r[0]) && !IsSpace(r[|r| - 1]))
  {
    TrimBothIsSlice(s);
    TrimRight(TrimLeft(s))
  }

  lemma TrimBothIsSlice(s: string)
    ensures IsTrimOf(s, TrimRight(TrimLeft(s)))
    ensures var r := TrimRight(TrimLeft(s)); r == [] || (!IsSpace(r[0]) && !IsSpace(r[|r| - 1]))
  {
    var l := TrimLeft(s);
    var r := TrimRight(l);
    var a, b := SliceOfSlice(s, l, r);
    if r != [] {
      assert r[0] == l[0];
    }
  }

  /** A prefix of a suffix of `s` is a slice of `s`, with white space outside it on both sides. */
  lemma SliceOfSlice(s: string, l: string, r: string) returns (a: int, b: int)
    requires |l| <= |s| && l == s[|s| - |l|..] && AllSpace(s[..|s| - |l|])
    requires |r| <= |l| && r == l[..|r|] && AllSpace(l[|r|..])
    ensures IsTrimmedSlice(s, r, a, b)
  {
    a := |s| - |l|;
    b := a + |r|;
    assert r == s[a..b] by {
      forall k | 0 <= k < |r| ensures r[k] == s[a..b][k] {
        assert r[k] == l[k] == s[a + k];
      }
    }
    assert s[b..] == l[|r|..];
  }

  // ---------------------------------------------------------------------------
  // The two regular expressions of isValidCep
  // ---------------------------------------------------------------------------

  /** One position of a fixed-width pattern: `\d` or a literal character. */
  datatype Atom = AnyDigit | Literal(c: char)

  /** RE2's `\d`: the ASCII digits only. */
  predicate IsDigit(c: char) {
    '0' <= c <= '9'
  }

  predicate AtomMatches(a: Atom, c: char) {
    match a
    case AnyDigit => IsDigit(c)
    case Literal(l) => c == l
  }

  /** `a{n}` */
  function Repeat(a: Atom, n: nat): (p: seq<Atom>)
    ensures |p| == n && forall i | 0 <= i < n :: p[i] == a
  {
    if n == 0 then [] else [a] + Repeat(a, n - 1)
  }

  /** `^\d{5}-\d{3}$` */
  const DashPattern: seq<Atom> := Repeat(AnyDigit, 5) + [Literal('-')] + Repeat(AnyDigit, 3)

  /** `^\d{8}$` */
  const NoDashPattern: seq<Atom> := Repeat(AnyDigit, 8)

  /** Anchored match (`^…$`) of a fixed-width pattern, consumed one atom at a time. */
  predicate FullMatch(p: seq<Atom>, s: string)
    decreases |p|
  {
    if p == [] then s == []
    else s != [] && AtomMatches(p[0], s[0]) && FullMatch(p[1..], s[1..])
  }

  /** `isValidCep` */
  predicate IsValidCep(codigo: string) {
    FullMatch(DashPattern, codigo) || FullMatch(NoDashPattern, codigo)
  }

  // ---------------------------------------------------------------------------
  // Shapes: the reference reading of the two patterns
  // ---------------------------------------------------------------------------

  /** `DDDDD-DDD`: nine characters, a dash at index 5 and ASCII digits everywhere else. */
  predicate IsDashedShape(s: string) {
    |s| == 9 && s[5] == '-' && forall i | 0 <= i < 9 && i != 5 :: IsDigit(s[i])
  }

  /** `DDDDDDDD`: eight ASCII digits. */
  predicate IsPlainShape(s: string) {
    |s| == 8 && forall i | 0 <= i < 8 :: IsDigit(s[i])
  }

  /** The inputs `NewCep` accepts, stated without the regular expressions. */
  predicate Accepts(codigo: string) {
    var t := TrimSpace(codigo);
    IsDashedShape(t) || IsPlainShape(t)
  }

  /** An anchored fixed-width match is a position-by-position match. */
  lemma {:induction false} FullMatchPointwise(p: seq<Atom>, s: string)
    ensures FullMatch(p, s) <==> |p| == |s| && forall i | 0 <= i < |s| :: AtomMatches(p[i], s[i])
    decreases |p|
  {
    if p != [] && s != [] {
      FullMatchPointwise(p[1..], s[1..]);
      if |p| == |s| && forall i | 0 <= i < |s| :: AtomMatches(p[i], s[i]) {
        forall i | 0 <= i < |s| - 1 ensures AtomMatches(p[1..][i], s[1..][i]) {
          assert AtomMatches(p[i + 1], s[i + 1]);
        }
      }
      if FullMatch(p, s) {
        forall i | 0 <= i < |s| ensures AtomMatches(p[i], s[i]) {
          if i > 0 { assert AtomMatches(p[1..][i - 1], s[1..][i - 1]); }
        }
      }
    }
  }

  /** `isValidCep` accepts exactly the dashed and the plain shapes. */
  lemma IsValidCepShape(codigo: string)
    ensures IsValidCep(codigo) <==> IsDashedShape(codigo) || IsPlainShape(codigo)
  {
    FullMatchPointwise(DashPattern, codigo);
    FullMatchPointwise(NoDashPattern, codigo);
    if |codigo| == 9 {
      forall i | 0 <= i < 9
        ensures AtomMatches(DashPattern[i], codigo[i]) <==> (if i == 5 then codigo[i] == '-' else IsDigit(codigo[i]))
      {
        if i < 5 {
          assert DashPattern[i] == Repeat(AnyDigit, 5)[i];
        } else if i > 5 {
          assert DashPattern[i] == Repeat(AnyDigit, 3)[i - 6];
        }
      }
    }
  }

  // ---------------------------------------------------------------------------
  // NewCep
  // ---------------------------------------------------------------------------

  /** `NewCep`: on success a canonical `DDDDD-DDD` value, otherwise the empty `Cep` and an error. */
  function NewCep(codigo: string): (r: CepResult)
    ensures r.err.None? <==> Accepts(codigo)
    ensures r.err.None? ==> IsDashedShape(r.cep.value)
    ensures r.err.Some? ==> r.cep == Cep("") && r.err.value == InvalidCepMessage
  {
    var t := TrimSpace(codigo);
    IsValidCepShape(t);
    if !IsValidCep(t) then
      CepResult(Cep(""), Some(InvalidCepMessage))
    else if |t| == 8 && '-' !in t then
      PlainGainsDash(t);
      CepResult(Cep(t[..5] + "-" + t[5..]), None)
    else
      CepResult(Cep(t), None)
  }

  /** Splitting eight digits after the fifth and putting a dash there gives the dashed shape. */
  lemma PlainGainsDash(t: string)
    requires IsPlainShape(t)
    ensures IsDashedShape(t[..5] + "-" + t[5..])
  {
    var d := t[..5] + "-" + t[5..];
    forall i | 0 <= i < 9 && i != 5 ensures IsDigit(d[i]) {
      if i < 5 { assert d[i] == t[i]; } else { assert d[i] == t[i - 1]; }
    }
  }

  /** An eight-digit input is split after its fifth digit. */
  lemma NewCepInsertsDash(codigo: string)
    requires IsPlainShape(TrimSpace(codigo))
    ensures var t := TrimSpace(codigo);
      NewCep(codigo) == CepResult(Cep(t[..5] + "-" + t[5..]), None)
  {
    var t := TrimSpace(codigo);
    IsValidCepShape(t);
    assert !IsDigit('-');
    assert '-' !in t by {
      forall i | 0 <= i < 8 ensures t[i] != '-' { assert IsDigit(t[i]); }
    }
  }

  /** An input already in the dashed form comes back as it was (after trimming). */
  lemma NewCepKeepsDashed(codigo: string)
    requires IsDashedShape(TrimSpace(codigo))
    ensures NewCep(codigo) == CepResult(Cep(TrimSpace(codigo)), None)
  {
    IsValidCepShape(TrimSpace(codigo));
  }

  /** A canonical value has no white space at either end, so trimming leaves it alone. */
  lemma TrimSpaceOfUnpadded(s: string)
    requires s == [] || (!IsSpace(s[0]) && !IsSpace(s[|s| - 1]))
    ensures TrimSpace(s) == s
  {
  }

  lemma TrimSpaceOfDashed(s: string)
    requires IsDashedShape(s)
    ensures TrimSpace(s) == s
  {
    assert IsDigit(s[0]) && IsDigit(s[8]);
    TrimSpaceOfUnpadded(s);
  }

  /** Normalising twice is normalising once. */
  lemma NewCepIdempotent(codigo: string)
    requires NewCep(codigo).err.None?
    ensures NewCep(NewCep(codigo).cep.String()) == NewCep(codigo)
  {
    NewCepKeepsCanonical(NewCep(codigo).cep.value);
  }

  /** Eight digits with nothing around them are accepted and gain their dash. */
  lemma NewCepOfPlain(s: string)
    requires IsPlainShape(s)
    ensures NewCep(s) == CepResult(Cep(s[..5] + "-" + s[5..]), None)
  {
    assert IsDigit(s[0]) && IsDigit(s[7]);
    TrimSpaceOfUnpadded(s);
    NewCepInsertsDash(s);
  }

  /** A value already in the canonical form is accepted and returned unchanged. */
  lemma NewCepKeepsCanonical(s: string)
    requires IsDashedShape(s)
    ensures NewCep(s) == CepResult(Cep(s), None)
  {
    TrimSpaceOfDashed(s);
    NewCepKeepsDashed(s);
  }

  // ---------------------------------------------------------------------------
  // Surrounding white space does not matter
  // ---------------------------------------------------------------------------

  lemma {:induction false} TrimLeftSkipsSpace(p: string, x: string)
    requires AllSpace(p)
    ensures TrimLeft(p + x) == TrimLeft(x)
    decreases |p|
  {
    if p != [] {
      assert (p + x)[0] == p[0] && IsSpace(p[0]);
      assert (p + x)[1..] == p[1..] + x;
      assert AllSpace(p[1..]) by {
        forall i | 0 <= i < |p| - 1 ensures IsSpace(p[1..][i]) { assert p[1..][i] == p[i + 1]; }
      }
      TrimLeftSkipsSpace(p[1..], x);
    } else {
      assert p + x == x;
    }
  }

  lemma {:induction false} TrimRightSkipsSpace(x: string, q: string)
    requires AllSpace(q)
    ensures TrimRight(x + q) == TrimRight(x)
    decreases |q|
  {
    if q != [] {
      assert (x + q)[|x + q| - 1] == q[|q| - 1] && IsSpace(q[|q| - 1]);
      var q' := q[..|q| - 1];
      assert (x + q)[..|x + q| - 1] == x + q';
      assert AllSpace(q') by {
        forall i | 0 <= i < |q'| ensures IsSpace(q'[i]) { assert q'[i] == q[i]; }
      }
      TrimRightSkipsSpace(x, q');
    } else {
      assert x + q == x;
    }
  }

  /** Trimming the left of `s + q` keeps `q` when `s` holds something other than white space. */
  lemma {:induction false} TrimLeftKeepsTail(s: string, q: string)
    requires !AllSpace(s)
    ensures TrimLeft(s + q) == TrimLeft(s) + q
    decreases |s|
  {
    assert (s + q)[0] == s[0];
    if IsSpace(s[0]) {
      var x := s[1..];
      assert (s + q)[1..] == x + q;
      assert !AllSpace(x) by {
        var i :| 0 <= i < |s| && !IsSpace(s[i]);
        assert x[i - 1] == s[i];
      }
      TrimLeftKeepsTail(x, q);
    }
  }

  lemma TrimSpaceUnfold(s: string)
    ensures TrimSpace(s) == TrimRight(TrimLeft(s))
  {
  }

  lemma TrimLeftOfSpace(s: string)
    requires AllSpace(s)
    ensures TrimLeft(s) == []
  {
  }

  lemma TrimLeftPadded(p: string, s: string, q: string)
    requires AllSpace(p)
    ensures TrimLeft(p + s + q) == TrimLeft(s + q)
  {
    var x := s + q;
    assert p + s + q == p + x;
    TrimLeftSkipsSpace(p, x);
  }

  lemma TrimBothAppend(s: string, q: string)
    requires AllSpace(q)
    ensures TrimRight(TrimLeft(s + q)) == TrimRight(TrimLeft(s))
  {
    if AllSpace(s) {
      TrimLeftSkipsSpace(s, q);
      assert s + q == s + q + [];
      TrimLeftOfSpace(q);
      TrimLeftOfSpace(s);
    } else {
      TrimLeftKeepsTail(s, q);
      TrimRightSkipsSpace(TrimLeft(s), q);
    }
  }

  /** `strings.TrimSpace(p + s + q) == strings.TrimSpace(s)` for white `p` and `q`. */
  lemma TrimSpaceIgnoresPadding(p: string, s: string, q: string)
    requires AllSpace(p) && AllSpace(q)
    ensures TrimSpace(p + s + q) == TrimSpace(s)
  {
    TrimSpaceUnfold(p + s + q);
    TrimSpaceUnfold(s);
    TrimLeftPadded(p, s, q);
    TrimBothAppend(s, q);
  }

  /** `NewCep` ignores leading and trailing white space. */
  lemma NewCepIgnoresPadding(p: string, s: string, q: string)
    requires AllSpace(p) && AllSpace(q)
    ensures NewCep(p + s + q) == NewCep(s)
  {
    TrimSpaceIgnoresPadding(p, s, q);
  }

  /** Only shapes are accepted: every rejected input yields the empty `Cep`. In particular
    * the empty string and white space alone are rejected. */
  lemma NewCepRejectsBlank(codigo: string)
    requires AllSpace(codigo)
    ensures NewCep(codigo) == CepResult(Cep(""), Some(InvalidCepMessage))
  {
    TrimSpaceIgnoresPadding(codigo, [], []);
    assert codigo + [] + [] == codigo;
  }

  /** A string with no white space at its ends is accepted only in one of the two shapes. */
  lemma NewCepRejectsUnpadded(codigo: string)
    requires codigo == [] || (!IsSpace(codigo[0]) && !IsSpace(codigo[|codigo| - 1]))
    requires !IsDashedShape(codigo) && !IsPlainShape(codigo)
    ensures NewCep(codigo) == CepResult(Cep(""), Some(InvalidCepMessage))
  {
    TrimSpaceOfUnpadded(codigo);
  }

  /** shared/domain/valueObjects/cep_test.go: a dashed CEP is kept as it is. */
  lemma NewCepDashedExample()
    ensures NewCep("12345-678") == CepResult(Cep("12345-678"), None)
  {
    var s := "12345-678";
    assert s[5] == '-' && forall i | 0 <= i < 9 && i != 5 :: IsDigit(s[i]);
    NewCepKeepsCanonical(s);
  }

  /** shared/domain/valueObjects/cep_test.go: the smallest CEP is accepted. */
  lemma NewCepLowestExample()
    ensures NewCep("00000-000") == CepResult(Cep("00000-000"), None)
  {
    var s := "00000-000";
    assert s[5] == '-' && forall i | 0 <= i < 9 && i != 5 :: IsDigit(s[i]);
    NewCepKeepsCanonical(s);
  }

  /** shared/domain/valueObjects/cep_test.go: the largest CEP is accepted. */
  lemma NewCepHighestExample()
    ensures NewCep("99999-999") == CepResult(Cep("99999-999"), None)
  {
    var s := "99999-999";
    assert s[5] == '-' && forall i | 0 <= i < 9 && i != 5 :: IsDigit(s[i]);
    NewCepKeepsCanonical(s);
  }

  /** shared/domain/valueObjects/cep_test.go: eight digits gain a dash. */
  lemma NewCepPlainExample()
    ensures NewCep("12345678") == CepResult(Cep("12345-678"), None)
  {
    var s := "12345678";
    assert IsPlainShape(s) by {
      forall i | 0 <= i < 8 ensures IsDigit(s[i]) { }
    }
    assert s[..5] == "12345" && s[5..] == "678";
    assert "12345" + "-" + "678" == "12345-678";
    NewCepOfPlain(s);
  }

  /** shared/domain/valueObjects/cep_test.go: padding around eight digits does not matter. */
  lemma NewCepPaddedExample()
    ensures NewCep(" " + "12345678" + " ") == NewCep("12345678")
  {
    NewCepIgnoresPadding(" ", "12345678", " ");
  }

  /** shared/domain/valueObjects/cep_test.go: too short. */
  lemma NewCepTooShortExample()
    ensures NewCep("1234-567").err.Some?
  {
    var s := "1234-567";
    assert !IsDigit(s[4]) && !IsSpace(s[0]) && !IsSpace(s[7]);
    NewCepRejectsUnpadded(s);
  }

  /** shared/domain/valueObjects/cep_test.go: too long. */
  lemma NewCepTooLongExample()
    ensures NewCep("123456-789").err.Some?
  {
    var s := "123456-789";
    assert |s| == 10 && !IsSpace(s[0]) && !IsSpace(s[9]);
    NewCepRejectsUnpadded(s);
  }

  /** shared/domain/valueObjects/cep_test.go: too many digits. */
  lemma NewCepTooManyDigitsExample()
    ensures NewCep("1234567890").err.Some?
  {
    var s := "1234567890";
    assert |s| == 10 && !IsSpace(s[0]) && !IsSpace(s[9]);
    NewCepRejectsUnpadded(s);
  }

  /** shared/domain/valueObjects/cep_test.go: a letter among the digits. */
  lemma NewCepLetterExample()
    ensures NewCep("1234a-678").err.Some?
  {
    var s := "1234a-678";
    assert !IsDigit(s[4]) && !IsSpace(s[0]) && !IsSpace(s[8]);
    NewCepRejectsUnpadded(s);
  }

  /** shared/domain/valueObjects/cep_test.go: a special character in place of the dash. */
  lemma NewCepSpecialCharacterExample()
    ensures NewCep("12345@678").err.Some?
  {
    var s := "12345@678";
    assert s[5] != '-' && !IsDigit(s[5]) && !IsSpace(s[0]) && !IsSpace(s[8]);
    NewCepRejectsUnpadded(s);
  }

  /** shared/domain/valueObjects/cep_test.go: letters only. */
  lemma NewCepLettersExample()
    ensures NewCep("abcde-fgh").err.Some?
  {
    var s := "abcde-fgh";
    assert !IsDigit(s[0]) && !IsSpace(s[0]) && !IsSpace(s[8]);
    NewCepRejectsUnpadded(s);
  }

  /** shared/domain/valueObjects/cep_test.go: a letter at the end. */
  lemma NewCepTrailingLetterExample()
    ensures NewCep("12345-67a").err.Some?
  {
    var s := "12345-67a";
    assert !IsDigit(s[8]) && !IsSpace(s[0]) && !IsSpace(s[8]);
    NewCepRejectsUnpadded(s);
  }

  /** shared/domain/valueObjects/cep_test.go: the empty string. */
  lemma NewCepEmptyExample()
    ensures NewCep("") == CepResult(Cep(""), Some(InvalidCepMessage))
  {
    NewCepRejectsBlank("");
  }

  /** shared/domain/valueObjects/cep_test.go: spaces alone. */
  lemma NewCepSpacesExample()
    ensures NewCep("     ") == CepResult(Cep(""), Some(InvalidCepMessage))
  {
    var s := "     ";
    assert AllSpace(s) by {
      forall i | 0 <= i < |s| ensures IsSpace(s[i]) { assert s[i] == ' '; }
    }
    NewCepRejectsBlank(s);
  }
}
