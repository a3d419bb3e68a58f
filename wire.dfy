/** Message text as the agents exchange it: plain text in which a number is an opaque rendered
    value, the `;`-delimited field encoding, and Java's `String.split(";")` on it. */
module Wire {

  datatype Option<T> = None | Some(value: T)

  /** One symbol of message text. Numbers and dates keep their value; how Java renders them
      is not modelled, only that a rendering is one unit of text that holds no `;`. */
  datatype Sym =
    | Ch(c: char)     // a character
    | Dbl(x: real)    // a double as Double.toString renders it
    | TwoDp(x: real)  // a double as String.format("%.2f", x) renders it
    | Long(n: int)    // a long in decimal
    | Date(ms: int)   // a java.util.Date as its toString renders it

  type Text = seq<Sym>

  const Semi := Ch(';')

  /** A string literal as message text. */
  function Lit(s: string): Text
  {
    seq(|s|, i requires 0 <= i < |s| => Ch(s[i]))
  }

  /** The first position of `x` in `s`. */
  function IndexOf<T(==)>(s: seq<T>, x: T): (i: nat)
    requires x in s
    ensures i < |s| && s[i] == x
    ensures forall j :: 0 <= j < i ==> s[j] != x
  {
    if s[0] == x then 0 else 1 + IndexOf(s[1..], x)
  }

  // ---------------------------------------------------------------------------------------
  // The field encoding: fields joined by `;`

  /** The fields joined by the delimiter, as in `a + ";" + b + ";" + c`. */
  function Join(fs: seq<Text>): Text
  {
    if fs == [] then []
    else if |fs| == 1 then fs[0]
    else fs[0] + [Semi] + Join(fs[1..])
  }

  /** Every piece between delimiters: n delimiters give n + 1 pieces, empty ones included. */
  function Pieces(t: Text): (ps: seq<Text>)
    ensures |ps| >= 1
    ensures forall k :: 0 <= k < |ps| ==> Semi !in ps[k]
    decreases |t|
  {
    if Semi !in t then [t]
    else
      var i := IndexOf(t, Semi);
      [t[..i]] + Pieces(t[i + 1..])
  }

  /** Joining the pieces of a text gives the text back. */
  lemma {:induction false} JoinPieces(t: Text)
    ensures Join(Pieces(t)) == t
    decreases |t|
  {
    if Semi in t {
      var i := IndexOf(t, Semi);
      var rest := Pieces(t[i + 1..]);
      JoinPieces(t[i + 1..]);
      assert Pieces(t)[1..] == rest;
      assert Join(Pieces(t)) == t[..i] + [Semi] + t[i + 1..];
      assert t == t[..i] + [t[i]] + t[i + 1..];
    }
  }

  /** The first delimiter after a delimiter-free prefix sits right behind that prefix. */
  lemma FirstDelimiterAfter(a: Text, b: Text)
    requires Semi !in a
    ensures Semi in a + [Semi] + b
    ensures IndexOf(a + [Semi] + b, Semi) == |a|
  {
    var t := a + [Semi] + b;
    assert t[|a|] == Semi;
    assert forall j :: 0 <= j < |a| ==> t[j] == a[j];
  }

  /** The pieces of a delimiter-free prefix, a delimiter and a rest. */
  lemma PiecesCons(a: Text, b: Text)
    requires Semi !in a
    ensures Pieces(a + [Semi] + b) == [a] + Pieces(b)
  {
    var t := a + [Semi] + b;
    FirstDelimiterAfter(a, b);
    assert t[..|a|] == a;
    assert t[|a| + 1..] == b;
  }

  /** Splitting a join of delimiter-free fields into its pieces gives the fields back. */
  lemma {:induction false} PiecesJoin(fs: seq<Text>)
    requires fs != []
    requires forall k :: 0 <= k < |fs| ==> Semi !in fs[k]
    ensures Pieces(Join(fs)) == fs
  {
    if |fs| > 1 {
      PiecesCons(fs[0], Join(fs[1..]));
      PiecesJoin(fs[1..]);
      assert fs == [fs[0]] + fs[1..];
    }
  }

  // ---------------------------------------------------------------------------------------
  // Java's String.split

  /** The pieces without the empty pieces at the end. */
  function DropTrailingEmpty(ps: seq<Text>): (r: seq<Text>)
    ensures r <= ps
    ensures r == [] || r[|r| - 1] != []
    ensures forall k :: |r| <= k < |ps| ==> ps[k] == []
  {
    if ps != [] && ps[|ps| - 1] == [] then DropTrailingEmpty(ps[..|ps| - 1]) else ps
  }

  /** `t.split(";")`: the whole text when it holds no delimiter, otherwise its pieces with the
      trailing empty ones removed. */
  function Split(t: Text): (fs: seq<Text>)
  {
    if Semi !in t then [t] else DropTrailingEmpty(Pieces(t))
  }

  /** The encoding round trip: delimiter-free fields joined by `;` split back into themselves,
      provided the last field of a join of two or more is not empty. */
  lemma SplitJoin(fs: seq<Text>)
    requires fs != []
    requires forall k :: 0 <= k < |fs| ==> Semi !in fs[k]
    requires |fs| > 1 ==> fs[|fs| - 1] != []
    ensures Split(Join(fs)) == fs
  {
    if |fs| > 1 {
      FirstDelimiterAfter(fs[0], Join(fs[1..]));
      PiecesJoin(fs);
    }
  }

  /** Every field `split` returns is free of the delimiter, and the fields, joined, are a prefix
      of the text: only trailing delimiters can be lost. */
  lemma SplitFields(t: Text)
    ensures |Split(t)| <= |Pieces(t)|
    ensures forall k :: 0 <= k < |Split(t)| ==> Semi !in Split(t)[k]
    ensures Join(Split(t)) <= t
  {
    JoinPieces(t);
    if Semi in t {
      var ps := Pieces(t);
      var r := DropTrailingEmpty(ps);
      JoinPrefix(r, ps);
    }
  }

  /** Dropping empty trailing pieces shortens the join to a prefix of it. */
  lemma {:induction false} JoinPrefix(r: seq<Text>, ps: seq<Text>)
    requires r <= ps
    requires forall k :: |r| <= k < |ps| ==> ps[k] == []
    ensures Join(r) <= Join(ps)
  {
    if r != [] && |r| < |ps| {
      assert r[0] == ps[0];
      if |r| == 1 {
        var tail := [Semi] + Join(ps[1..]);
        assert Join(ps) == ps[0] + tail;
        assert (ps[0] + tail)[..|ps[0]|] == ps[0];
      } else {
        assert forall k :: |r| - 1 <= k < |ps| - 1 ==> ps[1..][k] == ps[k + 1];
        JoinPrefix(r[1..], ps[1..]);
        var c, a, b := ps[0] + [Semi], Join(r[1..]), Join(ps[1..]);
        assert a == b[..|a|];
        assert Join(r) == c + a;
        assert Join(ps) == c + b;
        assert (c + b)[..|c| + |a|] == c + b[..|a|];
      }
    } else if |r| == |ps| {
      assert r == ps;
    }
  }

  /** `t.split(";", 2)[0]`: the text before the first delimiter, or all of it. */
  function FirstField(t: Text): (f: Text)
    ensures Semi !in f && f <= t
    ensures Semi in t ==> |f| < |t| && t[|f|] == Semi
    ensures Semi !in t ==> f == t
  {
    if Semi in t then t[..IndexOf(t, Semi)] else t
  }

  /** `t.trim().isEmpty()`: every symbol is a character at or below a space. */
  predicate IsBlank(t: Text)
  {
    forall i :: 0 <= i < |t| ==> t[i].Ch? && t[i].c <= ' '
  }

  // ---------------------------------------------------------------------------------------
  // Double.parseDouble, for the decimal forms the model knows

  predicate IsDigit(c: char) { '0' <= c <= '9' }

  predicate AllDigits(s: string) { forall i :: 0 <= i < |s| ==> IsDigit(s[i]) }

  /** The value of a string of decimal digits, most significant first. */
  function DigitsValue(s: string): nat
    requires AllDigits(s)
  {
    if s == [] then 0 else 10 * DigitsValue(s[..|s| - 1]) + (s[|s| - 1] as int - '0' as int)
  }

  function Pow10(n: nat): (p: nat)
    ensures p >= 1
  {
    if n == 0 then 1 else 10 * Pow10(n - 1)
  }

  /** Digits with an optional decimal point and at least one digit: `5`, `5.`, `.5`, `12.25`. */
  function ParseUnsigned(s: string): (r: Option<real>)
    ensures AllDigits(s) && s != [] ==> r == Some(DigitsValue(s) as real)
    ensures r.Some? ==> r.value >= 0.0
  {
    var whole := if '.' in s then s[..IndexOf(s, '.')] else s;
    var frac := if '.' in s then s[IndexOf(s, '.') + 1..] else "";
    if AllDigits(whole) && AllDigits(frac) && |whole| + |frac| > 0
    then Some(DigitsValue(whole) as real + DigitsValue(frac) as real / Pow10(|frac|) as real)
    else None
  }

  /** An optionally signed decimal. */
  function ParseDecimal(s: string): (r: Option<real>)
    ensures r.Some? && s != [] && s[0] == '-' ==> r.value <= 0.0
    ensures r.Some? && (s == [] || s[0] != '-') ==> r.value >= 0.0
  {
    if s != [] && (s[0] == '-' || s[0] == '+') then
      match ParseUnsigned(s[1..])
      case None => None
      case Some(v) => Some(if s[0] == '-' then -v else v)
    else ParseUnsigned(s)
  }

  predicate AllChars(t: Text) { forall i :: 0 <= i < |t| ==> t[i].Ch? }

  function Chars(t: Text): string
    requires AllChars(t)
  {
    seq(|t|, i requires 0 <= i < |t| => t[i].c)
  }

  /** `Double.parseDouble` of one field: a rendered double or long reads back as its value,
      typed text is read as a decimal, and anything else fails (the source throws). */
  function ParseNumber(f: Text): Option<real>
  {
    if |f| == 1 && f[0].Dbl? then Some(f[0].x)
    else if |f| == 1 && f[0].Long? then Some(f[0].n as real)
    else if AllChars(f) then ParseDecimal(Chars(f))
    else None
  }
}
