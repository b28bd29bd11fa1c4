/**
 * Python's `str.format(**kwargs)` with named replacement fields, as used for custom prompt
 * templates. A template string is read into pieces (literal characters, replacement fields and,
 * at the first syntax error, a malformed marker); filling the pieces left to right reproduces
 * Python's behaviour that the first problem met in the string is the one raised.
 */
module Templates {
  import opened Wrappers
  import Numerals

  /** The exceptions `str.format` raises for a template. */
  datatype FormatError =
    | SingleOpenBrace          // ValueError: a '{' at the very end
    | SingleCloseBrace         // ValueError: a '}' that is not doubled and closes nothing
    | UnclosedField            // ValueError: a field that the string ends inside
    | BraceInFieldName         // ValueError: a '{' inside a field name
    | TooManyDigits            // ValueError: a positional index above `sys.maxsize`
    | MissingKey(name: string) // KeyError: a named field that no argument supplies
    | MissingIndex(index: nat) // IndexError: a positional field, while only keywords are supplied

  /** `sys.maxsize` on a 64-bit build, the largest index a replacement field may name. */
  const MaxIndex: nat := 0x7FFF_FFFF_FFFF_FFFF

  function HexDigit(d: nat): (c: char)
    requires d < 16
  {
    if d < 10 then ('0' as int + d) as char else ('a' as int + d - 10) as char
  }

  /** One character of `repr(s)` when `q` is the quote `repr` chose. */
  function ReprChar(c: char, q: char): string {
    if c == q || c == '\\' then ['\\', c]
    else if c == '\t' then "\\t"
    else if c == '\n' then "\\n"
    else if c == '\r' then "\\r"
    else if c < ' ' || c as int == 0x7F then "\\x" + [HexDigit(c as int / 16), HexDigit(c as int % 16)]
    else [c]
  }

  function ReprChars(s: string, q: char): string
    decreases |s|
  {
    if s == [] then "" else ReprChar(s[0], q) + ReprChars(s[1..], q)
  }

  /** The quote `repr(s)` uses: a double quote when `s` holds a single quote and no double quote. */
  function ReprQuote(s: string): char {
    if '\'' in s && '"' !in s then '"' else '\''
  }

  /** `repr(s)` for a string: quoted, with the quote, backslashes and ASCII control characters escaped. */
  function Repr(s: string): (r: string)
    ensures |r| >= 2 && r[0] == r[|r| - 1] == ReprQuote(s)
  {
    [ReprQuote(s)] + ReprChars(s, ReprQuote(s)) + [ReprQuote(s)]
  }

  /** Text with no quote, backslash or ASCII control character. */
  predicate PlainText(s: string) {
    forall i :: 0 <= i < |s| ==> s[i] != '\'' && s[i] != '"' && s[i] != '\\' && s[i] >= ' ' && s[i] as int != 0x7F
  }

  lemma {:induction false} ReprCharsPlain(s: string, q: char)
    requires PlainText(s) && (q == '\'' || q == '"')
    ensures ReprChars(s, q) == s
    decreases |s|
  {
    if s != [] {
      assert PlainText(s[1..]) by {
        forall i | 0 <= i < |s[1..]| ensures s[1..][i] == s[i + 1] {}
      }
      ReprCharsPlain(s[1..], q);
      assert [s[0]] + s[1..] == s;
    }
  }

  /** The `repr` of plain text is the text in single quotes. */
  lemma ReprPlain(s: string)
    requires PlainText(s)
    ensures Repr(s) == "'" + s + "'"
  {
    ReprCharsPlain(s, '\'');
  }

  /** A name holding an apostrophe is quoted with double quotes; a newline is shown escaped. */
  lemma ReprExamples()
    ensures Repr("it's") == "\"it's\""
    ensures Repr("a\nb") == "'a\\nb'"
  {
    assert ReprChars("s", '"') == "s";
    assert ReprChars("'s", '"') == "'s";
    assert ReprChars("t's", '"') == "t's";
    assert ReprChars("b", '\'') == "b";
    assert ReprChars("\nb", '\'') == "\\nb";
  }

  /** `str(e)` for each error. */
  function Message(e: FormatError): string {
    match e
    case SingleOpenBrace => "Single '{' encountered in format string"
    case SingleCloseBrace => "Single '}' encountered in format string"
    case UnclosedField => "expected '}' before end of string"
    case BraceInFieldName => "unexpected '{' in field name"
    case TooManyDigits => "Too many decimal digits in format string"
    case MissingKey(name) => Repr(name)
    case MissingIndex(k) => "Replacement index " + Numerals.NatToString(k) + " out of range for positional args tuple"
  }

  datatype Piece = Lit(text: string) | Field(name: string) | Malformed(error: FormatError)

  predicate BraceFree(t: string) {
    '{' !in t && '}' !in t
  }

  /**
   * Where the name of a field opened just before `t` ends: at the first brace of `t`, or at its
   * end. The name does not nest braces: a '{' in it is an error, a '}' closes the field.
   */
  function NameEnd(t: string): (r: nat)
    ensures r <= |t| && BraceFree(t[..r])
    ensures r < |t| ==> t[r] == '{' || t[r] == '}'
    decreases |t|
  {
    if t == [] || t[0] == '{' || t[0] == '}' then 0
    else
      var r := 1 + NameEnd(t[1..]);
      assert t[..r] == [t[0]] + t[1..][..r - 1];
      r
  }

  /** `s` opens a field whose name is closed by a '}' before any other brace. */
  predicate OpensField(s: string) {
    |s| >= 2 && s[0] == '{' && s[1] != '{' && NameEnd(s[1..]) < |s| - 1 && s[1 + NameEnd(s[1..])] == '}'
  }

  /**
   * Reads a template left to right: "{{" and "}}" are literal braces, "{name}" is a field, and a
   * syntax error ends the reading with a `Malformed` piece. Literal text is one piece per character.
   */
  function Tokenize(s: string): seq<Piece>
    decreases |s|
  {
    if s == [] then []
    else if s[0] == '{' then
      if |s| == 1 then [Malformed(SingleOpenBrace)]
      else if s[1] == '{' then [Lit("{")] + Tokenize(s[2..])
      else
        var j := NameEnd(s[1..]);
        if j == |s| - 1 then [Malformed(UnclosedField)]
        else if s[1 + j] == '{' then [Malformed(BraceInFieldName)]
        else [Field(s[1..1 + j])] + Tokenize(s[j + 2..])
    else if s[0] == '}' then
      if |s| >= 2 && s[1] == '}' then [Lit("}")] + Tokenize(s[2..]) else [Malformed(SingleCloseBrace)]
    else [Lit([s[0]])] + Tokenize(s[1..])
  }

  lemma TokenizeChar(s: string)
    requires s != [] && s[0] != '{' && s[0] != '}'
    ensures Tokenize(s) == [Lit([s[0]])] + Tokenize(s[1..])
  {
  }

  lemma TokenizeDoubled(s: string)
    requires |s| >= 2 && (s[0] == s[1] == '{' || s[0] == s[1] == '}')
    ensures Tokenize(s) == [Lit([s[0]])] + Tokenize(s[2..])
  {
  }

  lemma TokenizeOpenField(s: string)
    requires OpensField(s)
    ensures var j := NameEnd(s[1..]);
      Tokenize(s) == [Field(s[1..1 + j])] + Tokenize(s[j + 2..])
  {
  }

  /** A template that starts with none of the well-formed openings reads as a single error marker. */
  lemma TokenizeError(s: string)
    requires s != [] && (s[0] == '{' || s[0] == '}')
    requires !(|s| >= 2 && s[0] == s[1])
    requires !OpensField(s)
    ensures |Tokenize(s)| == 1 && Tokenize(s)[0].Malformed?
  {
  }

  /**
   * After an opening '{' that is not doubled, a '{' met before any '}' is "unexpected '{' in
   * field name", and the end of the string met before any brace is "expected '}' before end of
   * string".
   */
  lemma TokenizeFieldErrors(s: string)
    requires |s| >= 2 && s[0] == '{' && s[1] != '{'
    ensures NameEnd(s[1..]) == |s| - 1 ==> Tokenize(s) == [Malformed(UnclosedField)]
    ensures NameEnd(s[1..]) < |s| - 1 && s[1 + NameEnd(s[1..])] == '{' ==> Tokenize(s) == [Malformed(BraceInFieldName)]
  {
  }

  lemma FieldErrorExamples()
    ensures Tokenize("{a{b}") == [Malformed(BraceInFieldName)]
    ensures Tokenize("{a{") == [Malformed(BraceInFieldName)]
    ensures Tokenize("{ab") == [Malformed(UnclosedField)]
  {
    assert NameEnd("a{b}"[1..]) == 0;
    assert NameEnd("a{"[1..]) == 0;
    assert NameEnd("ab"[1..][1..]) == 0;
  }

  /** Pieces where only the last can be an error marker and every literal is one character. */
  predicate WellShaped(ps: seq<Piece>) {
    && (forall i :: 0 <= i < |ps| - 1 ==> !ps[i].Malformed?)
    && (forall i :: 0 <= i < |ps| ==> ps[i].Lit? ==> |ps[i].text| == 1)
  }

  lemma ShapedCons(p: Piece, rest: seq<Piece>)
    requires !p.Malformed? && (p.Lit? ==> |p.text| == 1) && WellShaped(rest)
    ensures WellShaped([p] + rest)
  {
    var ps := [p] + rest;
    assert forall i :: 1 <= i < |ps| ==> ps[i] == rest[i - 1];
  }

  /** Only the last piece can be an error marker, and every literal piece is one character. */
  lemma {:induction false} TokenizeShape(s: string)
    ensures WellShaped(Tokenize(s))
    decreases |s|
  {
    if s == [] {
    } else if |s| >= 2 && (s[0] == s[1] == '{' || s[0] == s[1] == '}') {
      TokenizeDoubled(s);
      TokenizeShape(s[2..]);
      ShapedCons(Lit([s[0]]), Tokenize(s[2..]));
    } else if OpensField(s) {
      var j := NameEnd(s[1..]);
      TokenizeOpenField(s);
      TokenizeShape(s[j + 2..]);
      ShapedCons(Field(s[1..1 + j]), Tokenize(s[j + 2..]));
    } else if s[0] != '{' && s[0] != '}' {
      TokenizeChar(s);
      TokenizeShape(s[1..]);
      ShapedCons(Lit([s[0]]), Tokenize(s[1..]));
    } else {
      TokenizeError(s);
    }
  }

  predicate AllDigits(t: string) {
    forall i :: 0 <= i < |t| ==> Numerals.IsDigit(t[i])
  }

  /** The digits at the start of `t`: what CPython's `get_integer` reads before it meets a non-digit. */
  function LeadingDigits(t: string): (r: string)
    ensures r <= t && AllDigits(r)
    ensures |r| == |t| || !Numerals.IsDigit(t[|r|])
    ensures AllDigits(t) <==> r == t
    decreases |t|
  {
    if t == [] || !Numerals.IsDigit(t[0]) then "" else [t[0]] + LeadingDigits(t[1..])
  }

  /**
   * The digits are read one at a time, and the value read so far never decreases, so
   * `get_integer` meets its overflow check exactly when the whole leading run is above `sys.maxsize`,
   * whatever follows the run.
   */
  predicate Overflows(name: string) {
    Numerals.DigitsValue(LeadingDigits(name)) > MaxIndex
  }

  /** Reading one more digit never lowers the value: a prefix of a digit string is worth at most the whole. */
  lemma {:induction false} DigitsValuePrefix(p: string, d: string)
    requires p <= d && AllDigits(d)
    ensures Numerals.DigitsValue(p) <= Numerals.DigitsValue(d)
    decreases |d|
  {
    if p != d {
      assert p <= d[..|d| - 1];
      DigitsValuePrefix(p, d[..|d| - 1]);
    }
  }

  /** The value of field `name` when only the keyword arguments `args` are supplied. */
  function Lookup(name: string, args: map<string, string>): (r: Result<string, FormatError>)
    ensures r.Success? <==> name != "" && !AllDigits(name) && !Overflows(name) && name in args
    ensures r.Success? ==> r.value == args[name]
    ensures name == "" ==> r == Failure(MissingIndex(0))
    ensures Overflows(name) ==> r == Failure(TooManyDigits)
    ensures name != "" && AllDigits(name) && !Overflows(name) ==> r == Failure(MissingIndex(Numerals.DigitsValue(name)))
    ensures name != "" && !AllDigits(name) && !Overflows(name) && name !in args ==> r == Failure(MissingKey(name))
  {
    if name == "" then Failure(MissingIndex(0))
    else if Overflows(name) then Failure(TooManyDigits)
    else if AllDigits(name) then Failure(MissingIndex(Numerals.DigitsValue(name)))
    else if name in args then Success(args[name])
    else Failure(MissingKey(name))
  }

  /** A name that starts with a non-digit never overflows: it is a keyword or nothing. */
  lemma KeywordNoOverflow(name: string)
    requires name != "" && !Numerals.IsDigit(name[0])
    ensures !Overflows(name) && !AllDigits(name)
  {
  }

  function Pow10(n: nat): nat {
    if n == 0 then 1 else 10 * Pow10(n - 1)
  }

  /** A run of `n` digits that does not start with '0' is worth at least 10^(n-1). */
  lemma {:induction false} DigitsValueAtLeast(d: string)
    requires |d| > 0 && AllDigits(d) && d[0] != '0'
    ensures Numerals.DigitsValue(d) >= Pow10(|d| - 1)
    decreases |d|
  {
    if |d| > 1 {
      DigitsValueAtLeast(d[..|d| - 1]);
    }
  }

  /** The leading run of digits followed by a non-digit is exactly that run. */
  lemma {:induction false} LeadingDigitsOf(d: string, rest: string)
    requires AllDigits(d) && rest != [] && !Numerals.IsDigit(rest[0])
    ensures LeadingDigits(d + rest) == d
    decreases |d|
  {
    if d != [] {
      assert (d + rest)[1..] == d[1..] + rest;
      LeadingDigitsOf(d[1..], rest);
    }
  }

  /** Twenty leading digits not starting with '0' are above `sys.maxsize`, whatever follows them. */
  lemma TwentyDigitsOverflow(d: string, rest: string, args: map<string, string>)
    requires |d| == 20 && AllDigits(d) && d[0] != '0'
    requires rest != [] && !Numerals.IsDigit(rest[0])
    ensures Lookup(d + rest, args) == Failure(TooManyDigits)
  {
    LeadingDigitsOf(d, rest);
    DigitsValueAtLeast(d);
    assert Pow10(1) == 10;
    assert Pow10(2) == 100;
    assert Pow10(3) == 1000;
    assert Pow10(4) == 10000;
    assert Pow10(5) == 100000;
    assert Pow10(6) == 1000000;
    assert Pow10(7) == 10000000;
    assert Pow10(8) == 100000000;
    assert Pow10(9) == 1000000000;
    assert Pow10(10) == 10000000000;
    assert Pow10(11) == 100000000000;
    assert Pow10(12) == 1000000000000;
    assert Pow10(13) == 10000000000000;
    assert Pow10(14) == 100000000000000;
    assert Pow10(15) == 1000000000000000;
    assert Pow10(16) == 10000000000000000;
    assert Pow10(17) == 100000000000000000;
    assert Pow10(18) == 1000000000000000000;
    assert Pow10(19) == 10000000000000000000;
  }

  /** The field names `12345678901234567890x` and `99999999999999999999.a` raise "Too many decimal digits". */
  lemma OverflowExamples(args: map<string, string>)
    ensures Lookup("12345678901234567890x", args) == Failure(TooManyDigits)
    ensures Lookup("99999999999999999999.a", args) == Failure(TooManyDigits)
  {
    assert "12345678901234567890x" == "12345678901234567890" + "x";
    TwentyDigitsOverflow("12345678901234567890", "x", args);
    assert "99999999999999999999.a" == "99999999999999999999" + ".a";
    TwentyDigitsOverflow("99999999999999999999", ".a", args);
  }

  function Expand(p: Piece, args: map<string, string>): Result<string, FormatError> {
    match p
    case Lit(t) => Success(t)
    case Field(name) => Lookup(name, args)
    case Malformed(e) => Failure(e)
  }

  /** `template.format(**args)` on the pieces of the template. */
  function Format(ps: seq<Piece>, args: map<string, string>): Result<string, FormatError>
    decreases |ps|
  {
    if ps == [] then Success("")
    else
      var head :- Expand(ps[0], args);
      var tail :- Format(ps[1..], args);
      Success(head + tail)
  }

  /** Every piece can be filled from `args`. */
  predicate Fillable(ps: seq<Piece>, args: map<string, string>) {
    forall i :: 0 <= i < |ps| ==> Expand(ps[i], args).Success?
  }

  /** Formatting succeeds exactly when every piece can be filled. */
  lemma {:induction false} FormatSucceedsIff(ps: seq<Piece>, args: map<string, string>)
    ensures Format(ps, args).Success? <==> Fillable(ps, args)
    decreases |ps|
  {
    if ps != [] {
      FormatSucceedsIff(ps[1..], args);
      assert Fillable(ps, args) <==> Expand(ps[0], args).Success? && Fillable(ps[1..], args) by {
        if Expand(ps[0], args).Success? && Fillable(ps[1..], args) {
          forall i | 0 <= i < |ps| ensures Expand(ps[i], args).Success? {
            if i > 0 { assert ps[i] == ps[1..][i - 1]; }
          }
        }
        if Fillable(ps, args) {
          forall i | 0 <= i < |ps[1..]| ensures Expand(ps[1..][i], args).Success? {
            assert ps[1..][i] == ps[i + 1];
          }
        }
      }
    }
  }

  /** A failure is the error of the first piece that cannot be filled. */
  lemma {:induction false} FormatFirstError(ps: seq<Piece>, args: map<string, string>)
    requires Format(ps, args).Failure?
    ensures exists i :: (0 <= i < |ps| && Expand(ps[i], args) == Failure(Format(ps, args).error) &&
      (forall j :: 0 <= j < i ==> Expand(ps[j], args).Success?))
    decreases |ps|
  {
    if Expand(ps[0], args).Failure? {
      assert Expand(ps[0], args) == Failure(Format(ps, args).error);
    } else {
      FormatFirstError(ps[1..], args);
      var i :| 0 <= i < |ps[1..]| && Expand(ps[1..][i], args) == Failure(Format(ps[1..], args).error) &&
        (forall j :: 0 <= j < i ==> Expand(ps[1..][j], args).Success?);
      assert Expand(ps[i + 1], args) == Failure(Format(ps, args).error);
      forall j | 0 <= j < i + 1 ensures Expand(ps[j], args).Success? {
        if j > 0 { assert ps[j] == ps[1..][j - 1]; }
      }
    }
  }

  /** Formatting a concatenation formats the left part first, then the right part. */
  lemma {:induction false} FormatConcat(a: seq<Piece>, b: seq<Piece>, args: map<string, string>)
    ensures Format(a + b, args) ==
      if Format(a, args).Failure? then Format(a, args)
      else if Format(b, args).Failure? then Format(b, args)
      else Success(Format(a, args).value + Format(b, args).value)
    decreases |a|
  {
    if a == [] {
      assert a + b == b;
      if Format(b, args).Success? {
        assert "" + Format(b, args).value == Format(b, args).value;
      }
    } else {
      assert (a + b)[0] == a[0];
      assert (a + b)[1..] == a[1..] + b;
      FormatConcat(a[1..], b, args);
      if Expand(a[0], args).Success? && Format(a[1..], args).Success? && Format(b, args).Success? {
        var h, t, u := Expand(a[0], args).value, Format(a[1..], args).value, Format(b, args).value;
        assert h + (t + u) == (h + t) + u;
      }
    }
  }

  /** Literal text, one piece per character, as `Tokenize` produces it. */
  function Chars(t: string): (ps: seq<Piece>)
    ensures |ps| == |t|
    ensures forall i :: 0 <= i < |t| ==> ps[i] == Lit([t[i]])
  {
    seq(|t|, i requires 0 <= i < |t| => Lit([t[i]]))
  }

  lemma {:induction false} FormatChars(t: string, args: map<string, string>)
    ensures Format(Chars(t), args) == Success(t)
    decreases |t|
  {
    if t != [] {
      assert Chars(t)[1..] == Chars(t[1..]);
      FormatChars(t[1..], args);
      assert [t[0]] + t[1..] == t;
    }
  }

  /** The pieces with every literal split into single characters. */
  function Explode(ps: seq<Piece>): seq<Piece>
    decreases |ps|
  {
    if ps == [] then []
    else (if ps[0].Lit? then Chars(ps[0].text) else [ps[0]]) + Explode(ps[1..])
  }

  /** Splitting literals does not change what a template formats to. */
  lemma {:induction false} FormatExplode(ps: seq<Piece>, args: map<string, string>)
    ensures Format(Explode(ps), args) == Format(ps, args)
    decreases |ps|
  {
    if ps != [] {
      var first := if ps[0].Lit? then Chars(ps[0].text) else [ps[0]];
      FormatExplode(ps[1..], args);
      FormatConcat(first, Explode(ps[1..]), args);
      FormatConcat([ps[0]], ps[1..], args);
      assert [ps[0]] + ps[1..] == ps;
      if ps[0].Lit? {
        FormatChars(ps[0].text, args);
      }
    }
  }

  /** A literal written in template syntax: braces are doubled. */
  function Escape(t: string): (r: string)
    decreases |t|
  {
    if t == [] then ""
    else (if t[0] == '{' then "{{" else if t[0] == '}' then "}}" else [t[0]]) + Escape(t[1..])
  }

  function RenderPiece(p: Piece): string
    requires !p.Malformed?
  {
    match p
    case Lit(t) => Escape(t)
    case Field(name) => "{" + name + "}"
  }

  /** The template text that the pieces are read from. */
  function Render(ps: seq<Piece>): string
    requires forall i :: 0 <= i < |ps| ==> !ps[i].Malformed?
    decreases |ps|
  {
    if ps == [] then "" else RenderPiece(ps[0]) + Render(ps[1..])
  }

  predicate NoMalformed(ps: seq<Piece>) {
    forall i :: 0 <= i < |ps| ==> !ps[i].Malformed?
  }

  lemma RenderCons(p: Piece, rest: seq<Piece>)
    requires !p.Malformed? && NoMalformed(rest)
    ensures NoMalformed([p] + rest)
    ensures Render([p] + rest) == RenderPiece(p) + Render(rest)
  {
    assert ([p] + rest)[1..] == rest;
  }

  /** Every well-formed template is the rendering of what it is read into. */
  lemma {:induction false} RenderTokenize(s: string)
    ensures NoMalformed(Tokenize(s)) ==> Render(Tokenize(s)) == s
    decreases |s|, 2
  {
    if s == [] {
    } else if |s| >= 2 && (s[0] == s[1] == '{' || s[0] == s[1] == '}') {
      RenderDoubled(s);
    } else if OpensField(s) {
      RenderField(s);
    } else if s[0] != '{' && s[0] != '}' {
      RenderChar(s);
    } else {
      TokenizeError(s);
    }
  }

  lemma {:induction false} RenderDoubled(s: string)
    requires |s| >= 2 && (s[0] == s[1] == '{' || s[0] == s[1] == '}')
    ensures NoMalformed(Tokenize(s)) ==> Render(Tokenize(s)) == s
    decreases |s|, 1
  {
    TokenizeDoubled(s);
    assert RenderPiece(Lit([s[0]])) == s[..2];
    RenderTokenizeStep(s, Lit([s[0]]), 2);
  }

  lemma {:induction false} RenderField(s: string)
    requires OpensField(s)
    ensures NoMalformed(Tokenize(s)) ==> Render(Tokenize(s)) == s
    decreases |s|, 1
  {
    var j := NameEnd(s[1..]);
    TokenizeOpenField(s);
    assert s[1..][j] == '}';
    assert s[..j + 2] == [s[0]] + s[1..1 + j] + [s[j + 1]];
    RenderTokenizeStep(s, Field(s[1..1 + j]), j + 2);
  }

  lemma {:induction false} RenderChar(s: string)
    requires s != [] && s[0] != '{' && s[0] != '}'
    ensures NoMalformed(Tokenize(s)) ==> Render(Tokenize(s)) == s
    decreases |s|, 1
  {
    TokenizeChar(s);
    assert Escape([s[0]]) == [s[0]] == s[..1];
    RenderTokenizeStep(s, Lit([s[0]]), 1);
  }

  /** One step of `RenderTokenize`: the first piece renders the first `k` characters. */
  lemma {:induction false} RenderTokenizeStep(s: string, p: Piece, k: nat)
    requires 0 < k <= |s| && !p.Malformed?
    requires Tokenize(s) == [p] + Tokenize(s[k..])
    requires RenderPiece(p) == s[..k]
    ensures NoMalformed(Tokenize(s)) ==> Render(Tokenize(s)) == s
    decreases |s|, 0
  {
    var rest := Tokenize(s[k..]);
    if NoMalformed(Tokenize(s)) {
      assert NoMalformed(rest) by {
        forall i | 0 <= i < |rest| ensures !rest[i].Malformed? {
          assert rest[i] == Tokenize(s)[i + 1];
        }
      }
      RenderTokenize(s[k..]);
      RenderCons(p, rest);
      assert s == s[..k] + s[k..];
    }
  }

  /** Pieces that a template string can express: no error marker, no brace in a field name. */
  predicate Renderable(ps: seq<Piece>) {
    forall i :: 0 <= i < |ps| ==> !ps[i].Malformed? && (ps[i].Field? ==> BraceFree(ps[i].name))
  }

  lemma {:induction false} TokenizeEscape(t: string, rest: string)
    ensures Tokenize(Escape(t) + rest) == Chars(t) + Tokenize(rest)
    decreases |t|
  {
    if t != [] {
      var s := Escape(t) + rest;
      TokenizeEscape(t[1..], rest);
      assert Chars(t) == [Lit([t[0]])] + Chars(t[1..]);
      if t[0] == '{' || t[0] == '}' {
        assert s == [t[0], t[0]] + (Escape(t[1..]) + rest);
        TokenizeDoubled(s);
        assert s[2..] == Escape(t[1..]) + rest;
      } else {
        assert s == [t[0]] + (Escape(t[1..]) + rest);
        TokenizeChar(s);
        assert s[1..] == Escape(t[1..]) + rest;
      }
    } else {
      assert Escape(t) + rest == rest;
    }
  }

  lemma {:induction false} CloseAfterName(name: string, rest: string)
    requires BraceFree(name)
    ensures NameEnd(name + "}" + rest) == |name|
    decreases |name|
  {
    var t := name + "}" + rest;
    if name != [] {
      assert t[0] == name[0];
      assert t[1..] == name[1..] + "}" + rest;
      assert BraceFree(name[1..]) by {
        assert forall c :: c in name[1..] ==> c in name;
      }
      CloseAfterName(name[1..], rest);
    } else {
      assert t[0] == '}';
    }
  }

  lemma TokenizeField(name: string, rest: string)
    requires BraceFree(name)
    ensures Tokenize("{" + name + "}" + rest) == [Field(name)] + Tokenize(rest)
  {
    var s := "{" + name + "}" + rest;
    assert s[1..] == name + "}" + rest;
    CloseAfterName(name, rest);
    assert s[1..1 + |name|] == name;
    assert s[|name| + 2..] == rest;
  }

  /** Reading back a rendered template gives its pieces, with the literals split into characters. */
  lemma {:induction false} TokenizeRender(ps: seq<Piece>)
    requires Renderable(ps)
    ensures Tokenize(Render(ps)) == Explode(ps)
    decreases |ps|
  {
    if ps != [] {
      assert Renderable(ps[1..]) by {
        forall i | 0 <= i < |ps[1..]| ensures !ps[1..][i].Malformed? && (ps[1..][i].Field? ==> BraceFree(ps[1..][i].name)) {
          assert ps[1..][i] == ps[i + 1];
        }
      }
      TokenizeRender(ps[1..]);
      match ps[0]
      case Lit(t) =>
        TokenizeEscape(t, Render(ps[1..]));
      case Field(name) =>
        assert "{" + name + "}" + Render(ps[1..]) == RenderPiece(ps[0]) + Render(ps[1..]);
        TokenizeField(name, Render(ps[1..]));
    }
  }
}
