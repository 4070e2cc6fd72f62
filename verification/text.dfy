/** The handful of JavaScript string built-ins the terminal relies on:
    `trim`, `toLowerCase`, `startsWith`, `split` on one character, `join`,
    `filter(Boolean)` over strings, `replace(/ /g, '-')` and the decimal
    rendering of a positive number. Each is defined the way the language
    defines it, and the facts the rest of the model needs are proved here. */
module Text {

  datatype Option<T> = None | Some(value: T)

  /** The characters `String.prototype.trim` removes: the WhiteSpace and
      LineTerminator code points of ECMAScript. */
  predicate IsJsSpace(c: char) {
    var n := c as int;
    (0x09 <= n <= 0x0D) || n == 0x20 || n == 0xA0 || n == 0x1680 || (0x2000 <= n <= 0x200A)
    || n == 0x2028 || n == 0x2029 || n == 0x202F || n == 0x205F || n == 0x3000 || n == 0xFEFF
  }

  predicate AllSpace(s: string) {
    forall i :: 0 <= i < |s| ==> IsJsSpace(s[i])
  }

  /** The index of the first non-white-space character at or after `i`. */
  function SkipSpaces(s: string, i: nat): (r: nat)
    requires i <= |s|
    ensures i <= r <= |s|
    ensures forall k :: i <= k < r ==> IsJsSpace(s[k])
    ensures r == |s| || !IsJsSpace(s[r])
    decreases |s| - i
  {
    if i < |s| && IsJsSpace(s[i]) then SkipSpaces(s, i + 1) else i
  }

  /** The end of the content of `s[lo..hi]`: `hi` less its trailing white space. */
  function SkipSpacesBack(s: string, lo: nat, hi: nat): (r: nat)
    requires lo <= hi <= |s|
    ensures lo <= r <= hi
    ensures forall k :: r <= k < hi ==> IsJsSpace(s[k])
    ensures r == lo || !IsJsSpace(s[r - 1])
  {
    if hi > lo && IsJsSpace(s[hi - 1]) then SkipSpacesBack(s, lo, hi - 1) else hi
  }

  /** `trim`: the unique infix of `s` that is flanked by white space only
      and neither starts nor ends with white space. */
  function Trim(s: string): (r: string)
    ensures exists i :: 0 <= i <= |s| - |r| && r == s[i..i + |r|] && AllSpace(s[..i]) && AllSpace(s[i + |r|..])
    ensures r == [] || (!IsJsSpace(r[0]) && !IsJsSpace(r[|r| - 1]))
    ensures r == [] <==> AllSpace(s)
  {
    var a := SkipSpaces(s, 0);
    var b := SkipSpacesBack(s, a, |s|);
    TrimBounds(s, a, b);
    assert s[a..b] == s[a..a + |s[a..b]|];
    s[a..b]
  }

  /** The trim of a word flanked by white space is the word: the infix
      `Trim` picks is unique. */
  lemma TrimFlanked(pre: string, w: string, post: string)
    requires AllSpace(pre) && AllSpace(post)
    requires w != [] && !IsJsSpace(w[0]) && !IsJsSpace(w[|w| - 1])
    ensures Trim(pre + w + post) == w
  {
    var s := pre + w + post;
    PartsOfConcat(pre, w, post);
    assert s[|pre|] == w[0] && s[|pre| + |w| - 1] == w[|w| - 1];
    TrimBetween(s, |pre|, |pre| + |w|);
  }

  /** When only white space lies outside `s[lo..hi]` and that infix starts
      and ends with other characters, it is the trim. */
  lemma TrimBetween(s: string, lo: nat, hi: nat)
    requires lo < hi <= |s|
    requires forall k :: 0 <= k < lo ==> IsJsSpace(s[k])
    requires forall k :: hi <= k < |s| ==> IsJsSpace(s[k])
    requires !IsJsSpace(s[lo]) && !IsJsSpace(s[hi - 1])
    ensures Trim(s) == s[lo..hi]
  {
    var a := SkipSpaces(s, 0);
    assert a == lo;
    var b := SkipSpacesBack(s, a, |s|);
    assert b == hi;
  }

  /** Only white space outside `s[a..b]`. */
  lemma SpacesOutside(s: string, a: nat, b: nat)
    requires a <= b <= |s|
    requires forall k :: 0 <= k < a || b <= k < |s| ==> IsJsSpace(s[k])
    ensures AllSpace(s[..a]) && AllSpace(s[b..])
  {
    assert forall k :: 0 <= k < a ==> s[..a][k] == s[k];
    assert forall k :: b <= k < |s| ==> s[b..][k - b] == s[k];
  }

  lemma ToLowerSlice(s: string, i: nat, j: nat)
    requires i <= j <= |s|
    ensures ToLower(s[i..j]) == ToLower(s)[i..j]
  {
  }

  lemma PartsOfConcat(pre: string, w: string, post: string)
    ensures forall k :: 0 <= k < |pre| ==> (pre + w + post)[k] == pre[k]
    ensures forall k :: |pre| + |w| <= k < |pre| + |w| + |post| ==> (pre + w + post)[k] == post[k - |pre| - |w|]
    ensures (pre + w + post)[|pre|..|pre| + |w|] == w
  {
  }

  lemma TrimBounds(s: string, a: nat, b: nat)
    requires a == SkipSpaces(s, 0) && b == SkipSpacesBack(s, a, |s|)
    ensures AllSpace(s[..a]) && AllSpace(s[b..])
    ensures b == a <==> AllSpace(s)
  {
    assert forall k :: 0 <= k < a ==> s[..a][k] == s[k];
    assert forall k :: b <= k < |s| ==> s[b..][k - b] == s[k];
    if b != a {
      assert !IsJsSpace(s[b - 1]);
    }
  }

  lemma TrimIdempotent(s: string)
    ensures Trim(Trim(s)) == Trim(s)
  {
    TrimNoop(Trim(s));
  }

  /** A string whose two ends are not white space is its own trim. */
  lemma TrimNoop(s: string)
    requires s == [] || (!IsJsSpace(s[0]) && !IsJsSpace(s[|s| - 1]))
    ensures Trim(s) == s
  {
    assert s[0..|s|] == s;
  }

  predicate IsAsciiUpper(c: char) {
    'A' <= c <= 'Z'
  }

  /** The Kelvin sign, U+212A, whose lower case is the letter `k`. */
  predicate IsKelvin(c: char) {
    c as int == 0x212A
  }

  /** The characters whose lower case is an ASCII letter. */
  predicate LowersToAscii(c: char) {
    IsAsciiUpper(c) || IsKelvin(c)
  }

  function LowerChar(c: char): (r: char)
    ensures LowersToAscii(c) ==> 'a' <= r <= 'z'
  {
    if IsAsciiUpper(c) then (c as int + 32) as char
    else if IsKelvin(c) then 'k'
    else c
  }

  /** `toLowerCase` on the characters whose lower case is ASCII: the
      capital letters and the Kelvin sign. Every other character is kept,
      so two strings compare equal to an ASCII word after lowering exactly
      when they do in the language. */
  function ToLower(s: string): (r: string)
    ensures |r| == |s|
    ensures forall i :: 0 <= i < |s| ==> !LowersToAscii(r[i])
    ensures forall i :: 0 <= i < |s| ==> (r[i] == s[i] <==> !LowersToAscii(s[i]))
    ensures forall i :: 0 <= i < |s| && IsAsciiUpper(s[i]) ==> r[i] as int == s[i] as int + 32
    ensures forall i :: 0 <= i < |s| && IsKelvin(s[i]) ==> r[i] == 'k'
  {
    seq(|s|, i requires 0 <= i < |s| => LowerChar(s[i]))
  }

  /** Lowering works character by character, so it distributes over
      concatenation. */
  lemma ToLowerConcat(a: string, b: string)
    ensures ToLower(a + b) == ToLower(a) + ToLower(b)
  {
    assert forall i :: 0 <= i < |a + b| ==> ToLower(a + b)[i] == (ToLower(a) + ToLower(b))[i];
  }

  /** White space has no lower case of its own. */
  lemma ToLowerSpaces(s: string)
    requires AllSpace(s)
    ensures ToLower(s) == s
  {
    ToLowerNoop(s);
  }

  /** Lowering never turns a character into white space: a character that
      changes becomes an ASCII letter. */
  lemma ToLowerKeepsSpaces(s: string, k: nat)
    requires k < |s| && IsJsSpace(ToLower(s)[k])
    ensures s[k] == ToLower(s)[k]
  {
  }

  lemma ToLowerIdempotent(s: string)
    ensures ToLower(ToLower(s)) == ToLower(s)
  {
  }

  /** A string with no ASCII capital letter and no Kelvin sign is already
      lower case. */
  lemma ToLowerNoop(s: string)
    requires forall i :: 0 <= i < |s| ==> !LowersToAscii(s[i])
    ensures ToLower(s) == s
  {
  }

  function StartsWith(s: string, prefix: string): bool {
    |prefix| <= |s| && s[..|prefix|] == prefix
  }

  /** `replace(/ /g, '-')`: every space becomes a hyphen. */
  function HyphenateSpaces(s: string): (r: string)
    ensures |r| == |s| && ' ' !in r
    ensures forall i :: 0 <= i < |s| && s[i] == ' ' ==> r[i] == '-'
    ensures forall i :: 0 <= i < |s| && s[i] != ' ' ==> r[i] == s[i]
  {
    seq(|s|, i requires 0 <= i < |s| => if s[i] == ' ' then '-' else s[i])
  }

  /** `xs.join(sep)`. */
  function Join(xs: seq<string>, sep: string): string
  {
    if |xs| == 0 then ""
    else if |xs| == 1 then xs[0]
    else xs[0] + sep + Join(xs[1..], sep)
  }

  /** `s.split(c)` for a one-character separator: the pieces between
      consecutive occurrences of `c`, empty pieces included. */
  function Split(s: string, c: char): (r: seq<string>)
    ensures |r| >= 1
    ensures forall i :: 0 <= i < |r| ==> c !in r[i]
  {
    if |s| == 0 then [""]
    else if s[0] == c then [""] + Split(s[1..], c)
    else
      var rest := Split(s[1..], c);
      [[s[0]] + rest[0]] + rest[1..]
  }

  /** `xs.filter(Boolean)` on strings: drops the empty ones, keeps order. */
  function NonEmpty(xs: seq<string>): (r: seq<string>)
    ensures |r| <= |xs|
    ensures forall i :: 0 <= i < |r| ==> r[i] != [] && r[i] in xs
    ensures (forall i :: 0 <= i < |xs| ==> xs[i] != []) ==> r == xs
  {
    if |xs| == 0 then []
    else if xs[0] == [] then NonEmpty(xs[1..])
    else [xs[0]] + NonEmpty(xs[1..])
  }

  /** `s.split(' ').filter(Boolean)`: the tokens of a command line. */
  function Tokens(s: string): (r: seq<string>)
    ensures forall i :: 0 <= i < |r| ==> r[i] != [] && ' ' !in r[i]
  {
    NonEmpty(Split(s, ' '))
  }

  lemma JoinPrependHead(x: char, a: string, rest: seq<string>, sep: string)
    ensures Join([[x] + a] + rest, sep) == [x] + Join([a] + rest, sep)
  {
    var xs := [[x] + a] + rest;
    var ys := [a] + rest;
    assert xs[1..] == rest && ys[1..] == rest;
  }

  /** Joining the pieces of a split with the separator gives back the string. */
  lemma {:induction false} JoinSplit(s: string, c: char)
    ensures Join(Split(s, c), [c]) == s
    decreases |s|
  {
    if |s| == 0 {
    } else if s[0] == c {
      JoinSplit(s[1..], c);
      var rest := Split(s[1..], c);
      var xs := [""] + rest;
      assert xs[1..] == rest;
      assert s == [c] + s[1..];
    } else {
      JoinSplit(s[1..], c);
      var rest := Split(s[1..], c);
      assert rest == [rest[0]] + rest[1..];
      JoinPrependHead(s[0], rest[0], rest[1..], [c]);
      assert s == [s[0]] + s[1..];
    }
  }

  /** Splitting at one occurrence of the separator splits the two sides
      independently. */
  lemma {:induction false} SplitConcat(a: string, b: string, c: char)
    ensures Split(a + [c] + b, c) == Split(a, c) + Split(b, c)
    decreases |a|
  {
    var s := a + [c] + b;
    if |a| == 0 {
      assert s[0] == c && s[1..] == b;
    } else {
      assert s[1..] == a[1..] + [c] + b;
      SplitConcat(a[1..], b, c);
      if a[0] == c {
      } else {
        var rest := Split(a[1..], c);
        assert Split(s[1..], c) == rest + Split(b, c);
      }
    }
  }

  /** A string free of the separator splits into itself alone. */
  lemma {:induction false} SplitNoSep(s: string, c: char)
    requires c !in s
    ensures Split(s, c) == [s]
    decreases |s|
  {
    if |s| > 0 {
      SplitNoSep(s[1..], c);
      assert s == [s[0]] + s[1..];
    }
  }

  /** Splitting a join gives back the pieces, when no piece holds the
      separator. */
  lemma {:induction false} SplitJoin(xs: seq<string>, c: char)
    requires |xs| >= 1
    requires forall i :: 0 <= i < |xs| ==> c !in xs[i]
    ensures Split(Join(xs, [c]), c) == xs
    decreases |xs|
  {
    if |xs| == 1 {
      SplitNoSep(xs[0], c);
    } else {
      SplitJoin(xs[1..], c);
      SplitNoSep(xs[0], c);
      SplitConcat(xs[0], Join(xs[1..], [c]), c);
      assert xs == [xs[0]] + xs[1..];
    }
  }

  lemma NonEmptyConcat(xs: seq<string>, ys: seq<string>)
    ensures NonEmpty(xs + ys) == NonEmpty(xs) + NonEmpty(ys)
  {
    if |xs| > 0 {
      assert (xs + ys)[1..] == xs[1..] + ys;
      NonEmptyConcat(xs[1..], ys);
    } else {
      assert xs + ys == ys;
    }
  }

  /** Tokenising a line built from space-free tokens and single spaces
      gives the tokens back. */
  lemma TokensJoin(ts: seq<string>)
    requires forall i :: 0 <= i < |ts| ==> ts[i] != [] && ' ' !in ts[i]
    ensures Tokens(Join(ts, " ")) == ts
  {
    if |ts| == 0 {
      assert Split("", ' ') == [""];
    } else {
      SplitJoin(ts, ' ');
    }
  }

  /** Runs of spaces between tokens are dropped: joining with two spaces
      tokenises the same way as joining with one. */
  lemma {:induction false} TokensJoinWide(ts: seq<string>)
    requires forall i :: 0 <= i < |ts| ==> ts[i] != [] && ' ' !in ts[i]
    ensures Tokens(Join(ts, "  ")) == ts
    decreases |ts|
  {
    if |ts| == 0 {
      assert Split("", ' ') == [""];
    } else if |ts| == 1 {
      SplitNoSep(ts[0], ' ');
    } else {
      var rest := Join(ts[1..], "  ");
      assert Join(ts, "  ") == ts[0] + [' '] + ([' '] + rest);
      SplitConcat(ts[0], [' '] + rest, ' ');
      SplitConcat([], rest, ' ');
      assert [] + [' '] + rest == [' '] + rest;
      SplitNoSep(ts[0], ' ');
      assert Split([], ' ') == [""];
      TokensJoinWide(ts[1..]);
      NonEmptyConcat([ts[0]], [""] + Split(rest, ' '));
      NonEmptyConcat([""], Split(rest, ' '));
      assert ts == [ts[0]] + ts[1..];
    }
  }

  /** A line that starts with a non-space character has a first token, and
      that token starts with the same character. */
  lemma FirstToken(s: string)
    requires |s| > 0 && s[0] != ' '
    ensures |Tokens(s)| > 0 && Tokens(s)[0][0] == s[0]
  {
    var pieces := Split(s, ' ');
    assert pieces[0] != [] && pieces[0][0] == s[0];
    assert pieces == [pieces[0]] + pieces[1..];
  }

  /** The decimal digit for `d`. */
  function Digit(d: nat): char
    requires d < 10
  {
    "0123456789"[d]
  }

  function DigitValue(c: char): nat {
    if '0' <= c <= '9' then (c as int) - ('0' as int) else 0
  }

  /** `String(n)` for a natural number: its decimal numeral. */
  function Decimal(n: nat): (r: string)
    ensures |r| > 0
    ensures forall i :: 0 <= i < |r| ==> '0' <= r[i] <= '9'
    ensures |r| > 1 ==> r[0] != '0'
  {
    if n < 10 then [Digit(n)] else Decimal(n / 10) + [Digit(n % 10)]
  }

  /** Reads a string of decimal digits back as a number. */
  function ParseDecimal(s: string): nat
  {
    if |s| == 0 then 0 else ParseDecimal(s[..|s| - 1]) * 10 + DigitValue(s[|s| - 1])
  }

  /** The numeral of `n` reads back as `n`. */
  lemma {:induction false} DecimalRoundTrip(n: nat)
    ensures ParseDecimal(Decimal(n)) == n
    decreases n
  {
    if n < 10 {
      var r := Decimal(n);
      assert r[..0] == [];
    } else {
      DecimalRoundTrip(n / 10);
      var r := Decimal(n);
      assert r[..|r| - 1] == Decimal(n / 10);
    }
  }
}
