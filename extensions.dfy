/** The string and number helpers of DelvUI/Extensions.cs: name abbreviation,
    the K/M number formatter and string truncation. A string is a sequence
    of characters, counted as C# counts them only for the Basic Multilingual
    Plane (C# counts UTF-16 code units); upper-casing is ASCII upper-casing
    and digit grouping uses ','. */
module Extensions {
  import opened Wrappers

  /** The C# `uint`. */
  newtype uint32 = x: int | 0 <= x < 0x1_0000_0000

  // ---------------------------------------------------------------------------
  // Splitting a name into words (string.Split on ' ' with RemoveEmptyEntries)
  // ---------------------------------------------------------------------------

  /** A word of a split name: not empty and without a space. */
  predicate IsToken(t: string) {
    t != [] && ' ' !in t
  }

  predicate AllTokens(ts: seq<string>) {
    forall i :: 0 <= i < |ts| ==> IsToken(ts[i])
  }

  /** The longest prefix of `s` that holds no space. */
  function Word(s: string): (w: string)
    ensures |w| <= |s| && w == s[..|w|]
    ensures ' ' !in w
    ensures |w| < |s| ==> s[|w|] == ' '
  {
    if s == [] || s[0] == ' ' then [] else [s[0]] + Word(s[1..])
  }

  /** The words of `s`: the maximal runs of non-space characters, in order.
      Leading, trailing and repeated spaces never yield an empty word. */
  function Tokens(s: string): (ts: seq<string>)
    ensures AllTokens(ts)
    decreases |s|
  {
    if s == [] then []
    else if s[0] == ' ' then Tokens(s[1..])
    else
      var w := Word(s);
      [w] + Tokens(s[|w|..])
  }

  /** string.Join(sep, ts). */
  function Join(sep: string, ts: seq<string>): string
  {
    if |ts| == 0 then ""
    else if |ts| == 1 then ts[0]
    else ts[0] + sep + Join(sep, ts[1..])
  }

  lemma {:induction false} WordOfToken(t: string, rest: string)
    requires IsToken(t)
    requires rest == [] || rest[0] == ' '
    ensures Word(t + rest) == t
    decreases |t|
  {
    if |t| > 1 {
      assert (t + rest)[1..] == t[1..] + rest;
      WordOfToken(t[1..], rest);
    } else {
      assert (t + rest)[1..] == rest;
    }
  }

  /** Splitting words joined by single spaces gives the words back. */
  lemma {:induction false} TokensOfJoin(ts: seq<string>)
    requires AllTokens(ts)
    ensures Tokens(Join(" ", ts)) == ts
    decreases |ts|
  {
    if |ts| == 0 {
    } else if |ts| == 1 {
      var t := ts[0];
      WordOfToken(t, []);
      assert t + [] == t;
      assert t[|t|..] == [];
    } else {
      var t, rest := ts[0], Join(" ", ts[1..]);
      var s := t + " " + rest;
      assert s == t + (" " + rest);
      WordOfToken(t, " " + rest);
      assert s[|t|..] == " " + rest;
      assert (" " + rest)[1..] == rest;
      TokensOfJoin(ts[1..]);
      assert Tokens(s) == [t] + ts[1..];
      assert [t] + ts[1..] == ts;
    }
  }

  /** A string of spaces has no words. */
  lemma {:induction false} TokensOfBlank(s: string)
    requires forall i :: 0 <= i < |s| ==> s[i] == ' '
    ensures Tokens(s) == []
    decreases |s|
  {
    if s != [] {
      TokensOfBlank(s[1..]);
    }
  }

  /** A name with no space is one word. */
  lemma TokensOfWord(s: string)
    requires IsToken(s)
    ensures Tokens(s) == [s]
  {
    TokensOfJoin([s]);
  }

  /** A word ends at the first space, whatever follows it. */
  lemma {:induction false} WordBeforeSpace(a: string, c: string)
    requires c != [] && c[0] == ' '
    ensures Word(a + c) == Word(a)
    decreases |a|
  {
    if a != [] && a[0] != ' ' {
      assert (a + c)[1..] == a[1..] + c;
      WordBeforeSpace(a[1..], c);
    } else if a == [] {
      assert a + c == c;
    }
  }

  /** A space separates words: the words of `a + " " + b` are the words of
      `a` followed by the words of `b`. So leading, trailing and repeated
      spaces add no word. */
  lemma {:induction false} TokensSplit(a: string, b: string)
    ensures Tokens(a + " " + b) == Tokens(a) + Tokens(b)
    decreases |a|
  {
    var s := a + " " + b;
    if a == [] {
      assert s == " " + b;
      assert s[1..] == b;
    } else if a[0] == ' ' {
      assert s[1..] == a[1..] + " " + b;
      TokensSplit(a[1..], b);
    } else {
      TokensAfterWord(a, b);
      TokensSplit(a[|Word(a)|..], b);
    }
  }

  /** The first word of `a` is the first word of `a + " " + b`. */
  lemma TokensAfterWord(a: string, b: string)
    requires a != [] && a[0] != ' '
    ensures Tokens(a + " " + b) == [Word(a)] + Tokens(a[|Word(a)|..] + " " + b)
    ensures Tokens(a) == [Word(a)] + Tokens(a[|Word(a)|..])
  {
    var s, w := a + " " + b, Word(a);
    assert s == a + (" " + b);
    WordBeforeSpace(a, " " + b);
    assert s[|w|..] == a[|w|..] + " " + b;
  }

  /** Extra spaces before, between or after the words change nothing. */
  lemma TokensIgnoreExtraSpaces(a: string, b: string)
    ensures Tokens(" " + a) == Tokens(a)
    ensures Tokens(a + " ") == Tokens(a)
    ensures Tokens(a + "  " + b) == Tokens(a + " " + b)
  {
    TokensSplit([], a);
    assert [] + " " + a == " " + a;
    TokensSplit(a, []);
    assert a + " " + [] == a + " ";
    TokensSplit(a + " ", b);
    assert a + " " + " " + b == a + "  " + b;
    TokensSplit(a, b);
  }

  // ---------------------------------------------------------------------------
  // ASCII upper-casing (string.ToUpper, culture left out)
  // ---------------------------------------------------------------------------

  function UpperChar(c: char): char
  {
    if 'a' <= c <= 'z' then (c as int - 32) as char else c
  }

  function Upper(s: string): string
  {
    seq(|s|, i requires 0 <= i < |s| => UpperChar(s[i]))
  }

  lemma UpperAppend(a: string, b: string)
    ensures Upper(a + b) == Upper(a) + Upper(b)
  {
    assert forall i :: 0 <= i < |a + b| ==> Upper(a + b)[i] == (Upper(a) + Upper(b))[i];
  }

  /** Upper-casing a joined list is joining the upper-cased words. */
  lemma {:induction false} UpperJoin(sep: string, ts: seq<string>)
    ensures Upper(Join(sep, ts)) == Join(Upper(sep), seq(|ts|, i requires 0 <= i < |ts| => Upper(ts[i])))
    decreases |ts|
  {
    var us := seq(|ts|, i requires 0 <= i < |ts| => Upper(ts[i]));
    if |ts| >= 2 {
      UpperAppend(ts[0] + sep, Join(sep, ts[1..]));
      UpperAppend(ts[0], sep);
      UpperJoin(sep, ts[1..]);
      assert us[1..] == seq(|ts[1..]|, i requires 0 <= i < |ts[1..]| => Upper(ts[1..][i]));
    }
  }

  // ---------------------------------------------------------------------------
  // Abbreviate
  // ---------------------------------------------------------------------------

  /** Every word but the last replaced by its first character. */
  function Initials(ts: seq<string>): (r: seq<string>)
    requires AllTokens(ts)
  {
    seq(|ts|, i requires 0 <= i < |ts| => if i < |ts| - 1 then [ts[i][0]] else ts[i])
  }

  /** What Abbreviate returns for `name`. */
  function Abbreviation(name: string): string
  {
    Upper(Join(". ", Initials(Tokens(name))))
  }

  /** Extensions.Abbreviate: split into words, overwrite every word but the
      last with its first character, join with ". " and upper-case. */
  method Abbreviate(name: string) returns (r: string)
    ensures r == Abbreviation(name)
  {
    var words := Tokens(name);
    var splits := new string[|words|](i requires 0 <= i < |words| => words[i]);
    var i := 0;
    while i < splits.Length - 1
      invariant 0 <= i <= splits.Length
      invariant splits.Length > 0 ==> i <= splits.Length - 1
      invariant forall k :: 0 <= k < i ==> splits[k] == [words[k][0]]
      invariant forall k :: i <= k < splits.Length ==> splits[k] == words[k]
    {
      splits[i] := [splits[i][0]];
      i := i + 1;
    }
    assert forall k :: 0 <= k < splits.Length ==> splits[..][k] == Initials(words)[k];
    assert splits[..] == Initials(words);
    r := Upper(Join(". ", splits[..]));
  }

  /** "John Smith Doe" is abbreviated to "J. S. DOE". */
  lemma AbbreviationExample()
    ensures Abbreviation("John Smith Doe") == "J. S. DOE"
  {
    var ws := ["John", "Smith", "Doe"];
    assert Join(" ", ws[2..]) == "Doe";
    assert Join(" ", ws[1..]) == "Smith" + " " + "Doe";
    assert Join(" ", ws) == "John Smith Doe";
    TokensOfJoin(ws);
    var ini := Initials(ws);
    assert ini == ["J", "S", "Doe"];
    assert Join(". ", ini[2..]) == "Doe";
    assert Join(". ", ini[1..]) == "S. Doe";
    assert Join(". ", ini) == "J. S. Doe";
    var up := Upper("J. S. Doe");
    assert |up| == 9;
    assert up == "J. S. DOE";
  }

  /** A one-word name comes back only upper-cased: the loop runs zero times. */
  lemma AbbreviationOfOneWord(name: string)
    requires IsToken(name)
    ensures Abbreviation(name) == Upper(name)
  {
    TokensOfWord(name);
    assert Initials([name]) == [name];
  }

  /** An empty or all-space name abbreviates to "". */
  lemma AbbreviationOfBlank(name: string)
    requires forall i :: 0 <= i < |name| ==> name[i] == ' '
    ensures Abbreviation(name) == ""
  {
    TokensOfBlank(name);
    assert Initials([]) == [];
  }

  /** The pieces of an abbreviation: the initial (or last word) plus the '.'
      that precedes the separating space. */
  function Dotted(ts: seq<string>): (r: seq<string>)
  {
    seq(|ts|, i requires 0 <= i < |ts| => if i < |ts| - 1 then ts[i] + "." else ts[i])
  }

  lemma {:induction false} JoinDotted(ts: seq<string>)
    ensures Join(". ", ts) == Join(" ", Dotted(ts))
    decreases |ts|
  {
    if |ts| >= 2 {
      JoinDotted(ts[1..]);
      assert Dotted(ts)[1..] == Dotted(ts[1..]);
      assert ts[0] + ". " + Join(". ", ts[1..]) == (ts[0] + ".") + " " + Join(". ", ts[1..]);
    }
  }

  /** The upper-cased dotted initials are words again: the initial and a '.'
      for every word but the last, which is only upper-cased. */
  lemma UpperDottedWords(ws: seq<string>)
    requires AllTokens(ws)
    ensures var dotted := Dotted(Initials(ws));
      var us := seq(|ws|, i requires 0 <= i < |ws| => Upper(dotted[i]));
      && AllTokens(us)
      && (forall i :: 0 <= i < |ws| - 1 ==> us[i] == [UpperChar(ws[i][0]), '.'])
      && (|ws| > 0 ==> us[|ws| - 1] == Upper(ws[|ws| - 1]))
  {
    var n := |ws|;
    var dotted := Dotted(Initials(ws));
    var us := seq(n, i requires 0 <= i < n => Upper(dotted[i]));
    forall i | 0 <= i < n ensures IsToken(us[i]) {
      assert dotted[i] != [];
      assert forall k :: 0 <= k < |dotted[i]| ==> dotted[i][k] != ' ';
    }
    forall i | 0 <= i < n - 1 ensures us[i] == [UpperChar(ws[i][0]), '.'] {
      assert dotted[i] == [ws[i][0], '.'];
    }
  }

  /** The abbreviation has exactly as many words as the name: one per word,
      every word but the last reduced to its upper-cased initial and a '.',
      the last one upper-cased. */
  lemma AbbreviationWords(name: string)
    ensures var ws := Tokens(name);
      var n := |ws|;
      var rs := Tokens(Abbreviation(name));
      |rs| == n
      && (forall i :: 0 <= i < n - 1 ==> rs[i] == [UpperChar(ws[i][0]), '.'])
      && (n > 0 ==> rs[n - 1] == Upper(ws[n - 1]))
  {
    var ws := Tokens(name);
    var n := |ws|;
    var dotted := Dotted(Initials(ws));
    JoinDotted(Initials(ws));
    UpperJoin(" ", dotted);
    var us := seq(n, i requires 0 <= i < n => Upper(dotted[i]));
    assert Upper(" ") == " ";
    UpperDottedWords(ws);
    TokensOfJoin(us);
  }

  // ---------------------------------------------------------------------------
  // Decimal digits, digit grouping and reading a number back
  // ---------------------------------------------------------------------------

  predicate IsDigit(c: char) {
    '0' <= c <= '9'
  }

  function DigitChar(d: nat): (c: char)
    requires d < 10
    ensures IsDigit(c)
  {
    ('0' as int + d) as char
  }

  /** n.ToString() ("0.#" prints an integer the same way). */
  function Digits(n: nat): (s: string)
    ensures s != [] && forall i :: 0 <= i < |s| ==> IsDigit(s[i])
  {
    if n < 10 then [DigitChar(n)] else Digits(n / 10) + [DigitChar(n % 10)]
  }

  /** Three digits with leading zeros, a group after a ',' separator. */
  function Group3(n: nat): string
    requires n < 1000
  {
    [DigitChar(n / 100), DigitChar(n / 10 % 10), DigitChar(n % 10)]
  }

  /** n.ToString("#,0"): digits grouped by three with ','. */
  function Grouped(n: nat): string
  {
    if n < 1000 then Digits(n) else Grouped(n / 1000) + "," + Group3(n % 1000)
  }

  predicate IsNumeral(s: string) {
    forall i :: 0 <= i < |s| ==> IsDigit(s[i]) || s[i] == ','
  }

  /** The value of a decimal numeral whose digits may be grouped with ','. */
  function ReadNumber(s: string): nat
    requires IsNumeral(s)
  {
    if s == [] then 0
    else
      var c := s[|s| - 1];
      if c == ',' then ReadNumber(s[..|s| - 1])
      else ReadNumber(s[..|s| - 1]) * 10 + (c as int - '0' as int)
  }

  lemma {:induction false} GroupedIsNumeral(n: nat)
    ensures IsNumeral(Grouped(n)) && Grouped(n) != [] && '.' !in Grouped(n)
  {
    if n >= 1000 {
      GroupedIsNumeral(n / 1000);
    }
  }

  /** The "#,0" shape: digits, a ',' exactly before every group of three
      digits counted from the right, and no leading zero. */
  predicate IsGroupedNumeral(s: string) {
    && s != []
    && IsDigit(s[0])
    && (forall i :: 0 <= i < |s| ==> IsDigit(s[i]) || s[i] == ',')
    && (forall i :: 0 <= i < |s| ==> (s[i] == ',' <==> (|s| - i) % 4 == 0))
    && (s[0] == '0' ==> s == "0")
  }

  /** n.ToString() has one to three digits below 1000, and no leading zero. */
  lemma {:induction false} DigitsShape(n: nat)
    ensures var d := Digits(n);
      && (n < 1000 ==> |d| <= 3)
      && (n > 0 ==> d[0] != '0')
      && (n == 0 ==> d == "0")
  {
    if n >= 10 {
      DigitsShape(n / 10);
    }
  }

  lemma {:induction false} GroupedShape(n: nat)
    ensures IsGroupedNumeral(Grouped(n))
    ensures n > 0 ==> Grouped(n)[0] != '0'
  {
    DigitsShape(n);
    if n >= 1000 {
      var a, g := Grouped(n / 1000), Group3(n % 1000);
      GroupedShape(n / 1000);
      GroupAfterShape(a, n % 1000);
    }
  }

  /** Appending "," and a three-digit group keeps the "#,0" shape. */
  lemma GroupAfterShape(a: string, m: nat)
    requires IsGroupedNumeral(a) && a[0] != '0' && m < 1000
    ensures IsGroupedNumeral(a + "," + Group3(m))
    ensures (a + "," + Group3(m))[0] == a[0]
  {
    var s := a + "," + Group3(m);
    assert |s| == |a| + 4;
    forall i | 0 <= i < |a| ensures s[i] == a[i] && (|s| - i) % 4 == (|a| - i) % 4 {
    }
    forall i | |a| <= i < |s| ensures s[i] == ',' <==> (|s| - i) % 4 == 0 {
    }
  }

  lemma {:induction false} ReadDigits(n: nat)
    ensures ReadNumber(Digits(n)) == n
  {
    if n >= 10 {
      var s := Digits(n / 10) + [DigitChar(n % 10)];
      assert s[..|s| - 1] == Digits(n / 10);
      ReadDigits(n / 10);
    }
  }

  /** Appending one digit shifts the value read by one decimal place. */
  lemma ReadNextDigit(s: string, d: nat)
    requires IsNumeral(s) && d < 10
    ensures IsNumeral(s + [DigitChar(d)])
    ensures ReadNumber(s + [DigitChar(d)]) == ReadNumber(s) * 10 + d
  {
    var t := s + [DigitChar(d)];
    assert t[..|t| - 1] == s;
  }

  lemma ReadAfterGroup(a: string, m: nat)
    requires IsNumeral(a) && m < 1000
    ensures IsNumeral(a + "," + Group3(m))
    ensures ReadNumber(a + "," + Group3(m)) == ReadNumber(a) * 1000 + m
  {
    var s0 := a + ",";
    assert s0[..|a|] == a;
    assert ReadNumber(s0) == ReadNumber(a);
    ReadNextDigit(s0, m / 100);
    var s1 := s0 + [DigitChar(m / 100)];
    ReadNextDigit(s1, m / 10 % 10);
    var s2 := s1 + [DigitChar(m / 10 % 10)];
    ReadNextDigit(s2, m % 10);
    assert s2 + [DigitChar(m % 10)] == a + "," + Group3(m);
  }

  /** Reading a grouped numeral gives the number back. */
  lemma {:induction false} ReadGrouped(n: nat)
    ensures IsNumeral(Grouped(n)) && ReadNumber(Grouped(n)) == n
  {
    GroupedIsNumeral(n);
    if n < 1000 {
      ReadDigits(n);
    } else {
      ReadGrouped(n / 1000);
      ReadAfterGroup(Grouped(n / 1000), n % 1000);
    }
  }

  /** A digit string with a non-zero first digit reads as a positive number. */
  lemma {:induction false} ReadLeadingDigit(s: string)
    requires s != [] && forall i :: 0 <= i < |s| ==> IsDigit(s[i])
    requires s[0] != '0'
    ensures IsNumeral(s) && ReadNumber(s) > 0
    decreases |s|
  {
    if |s| > 1 {
      var p := s[..|s| - 1];
      assert p[0] == s[0];
      ReadLeadingDigit(p);
    }
  }

  /** A digit string without a leading zero is the ToString() of its value. */
  lemma {:induction false} DigitsOfRead(s: string)
    requires s != [] && forall i :: 0 <= i < |s| ==> IsDigit(s[i])
    requires s[0] == '0' ==> s == "0"
    ensures IsNumeral(s) && Digits(ReadNumber(s)) == s
    decreases |s|
  {
    var c := s[|s| - 1];
    var d := c as int - '0' as int;
    assert DigitChar(d) == c;
    if |s| > 1 {
      var p := s[..|s| - 1];
      assert p[0] == s[0];
      DigitsOfRead(p);
      ReadLeadingDigit(p);
      var n := ReadNumber(s);
      assert n == ReadNumber(p) * 10 + d;
      assert n / 10 == ReadNumber(p) && n % 10 == d;
      assert s == p + [c];
    }
  }

  /** Three digits are the Group3 of their value. */
  lemma Group3OfRead(t: string)
    requires |t| == 3 && forall i :: 0 <= i < 3 ==> IsDigit(t[i])
    ensures IsNumeral(t) && ReadNumber(t) < 1000 && Group3(ReadNumber(t)) == t
  {
    var d0, d1, d2 := DigitValue(t[0]), DigitValue(t[1]), DigitValue(t[2]);
    ReadNextDigit([], d0);
    ReadNextDigit([t[0]], d1);
    ReadNextDigit([t[0], t[1]], d2);
    assert [t[0], t[1]] + [t[2]] == t;
    ThreeDigits(d0, d1, d2);
  }

  /** The value of a digit character, and the character back. */
  function DigitValue(c: char): (d: nat)
    requires IsDigit(c)
    ensures d < 10 && DigitChar(d) == c
  {
    c as int - '0' as int
  }

  lemma ThreeDigits(d0: nat, d1: nat, d2: nat)
    requires d0 < 10 && d1 < 10 && d2 < 10
    ensures var v := (d0 * 10 + d1) * 10 + d2;
      v < 1000 && v / 100 == d0 && v / 10 % 10 == d1 && v % 10 == d2
  {
  }

  /** The "#,0" shape determines the text: a string of that shape is the
      grouped text of the number it reads as. */
  lemma {:induction false} GroupedOfRead(s: string)
    requires IsGroupedNumeral(s)
    ensures IsNumeral(s) && Grouped(ReadNumber(s)) == s
    decreases |s|
  {
    if |s| <= 3 {
      GroupedOfShort(s);
    } else {
      GroupedParts(s);
      var a, t := s[..|s| - 4], s[|s| - 3..];
      assert forall i :: 0 <= i < 3 ==> t[i] == s[|s| - 3 + i];
      GroupedOfRead(a);
      Group3OfRead(t);
      var m, v := ReadNumber(a), ReadNumber(t);
      assert s == a + "," + Group3(v);
      ReadAfterGroup(a, v);
      assert a[0] == s[0] != '0';
      assert m != 0 by { assert Grouped(0) == "0"; }
      GroupedAppend(m, v);
    }
  }

  /** Up to three characters of the "#,0" shape are a plain ToString(). */
  lemma GroupedOfShort(s: string)
    requires IsGroupedNumeral(s) && |s| <= 3
    ensures IsNumeral(s) && Grouped(ReadNumber(s)) == s
  {
    forall i | 0 <= i < |s| ensures IsDigit(s[i]) {
      assert (|s| - i) % 4 != 0;
    }
    DigitsOfRead(s);
    var n := ReadNumber(s);
    if n >= 1000 {
      DigitsLength(n);
    }
  }

  /** Grouping a number of 1000 or more: its thousands, a ',' and the
      last three digits. */
  lemma GroupedAppend(m: nat, v: nat)
    requires m > 0 && v < 1000
    ensures Grouped(m * 1000 + v) == Grouped(m) + "," + Group3(v)
  {
    var n := m * 1000 + v;
    assert n / 1000 == m && n % 1000 == v;
  }

  /** A "#,0" text longer than three characters is a shorter one, a ','
      and three digits. */
  lemma GroupedParts(s: string)
    requires IsGroupedNumeral(s) && |s| > 3
    ensures |s| >= 5 && s[|s| - 4] == ','
    ensures IsGroupedNumeral(s[..|s| - 4])
    ensures forall i :: |s| - 3 <= i < |s| ==> IsDigit(s[i])
  {
    assert s[0] != ',';
    assert (|s| - 0) % 4 != 0;
    var a := s[..|s| - 4];
    assert s[|s| - 4] == ',' by { assert (|s| - (|s| - 4)) % 4 == 0; }
    forall i | |s| - 3 <= i < |s| ensures IsDigit(s[i]) {
      assert (|s| - i) % 4 != 0;
    }
    forall i | 0 <= i < |a| ensures a[i] == s[i] && (|a| - i) % 4 == (|s| - i) % 4 {
    }
  }

  /** A number of 1000 or more has at least four digits. */
  lemma {:induction false} DigitsLength(n: nat)
    ensures n >= 10 ==> |Digits(n)| >= 2
    ensures n >= 100 ==> |Digits(n)| >= 3
    ensures n >= 1000 ==> |Digits(n)| >= 4
  {
    if n >= 10 {
      DigitsLength(n / 10);
    }
  }

  // ---------------------------------------------------------------------------
  // KiloFormat
  // ---------------------------------------------------------------------------

  /** Extensions.KiloFormat. Every quotient is a `uint` division, so the
      "0.#" branches never print a fractional digit, and their quotients are
      below 1000, where "0.#" and "#,0" print alike. */
  function KiloFormat(num: uint32): (r: string)
    ensures r == Grouped(num as nat / Unit(num)) + Suffix(num)
  {
    var n := num as nat;
    QuotientAndSuffix(num);
    if n >= 100000000 then Grouped(n / 1000000) + "M"
    else if n >= 1000000 then SmallGrouped(n / 1000000); Digits(n / 1000000) + "M"
    else if n >= 100000 then Grouped(n / 1000) + "K"
    else if n >= 10000 then SmallGrouped(n / 1000); Digits(n / 1000) + "K"
    else Grouped(n)
  }

  lemma QuotientAndSuffix(num: uint32)
    ensures var n := num as nat;
      && (n >= 1000000 ==> n / Unit(num) == n / 1000000 && Suffix(num) == "M")
      && (1000000 > n >= 10000 ==> n / Unit(num) == n / 1000 && Suffix(num) == "K")
      && (n < 10000 ==> n / Unit(num) == n && Suffix(num) == "")
  {
  }

  /** Below 1000 "#,0" prints no separator, the same as "0.#". */
  lemma SmallGrouped(n: nat)
    requires n < 1000
    ensures Grouped(n) == Digits(n)
  {
  }

  /** The unit KiloFormat divides by, by descending thresholds. */
  function Unit(num: uint32): nat
  {
    if num >= 1000000 then 1000000 else if num >= 10000 then 1000 else 1
  }

  function Suffix(num: uint32): string
  {
    if num >= 1000000 then "M" else if num >= 10000 then "K" else ""
  }

  /** KiloFormat prints the truncating quotient of `num` by its unit, read
      back from the digits before the suffix; and never a decimal point. */
  lemma KiloFormatReadsBack(num: uint32)
    ensures var r, sfx := KiloFormat(num), Suffix(num);
      var q := num as nat / Unit(num);
      && |sfx| < |r|
      && r[|r| - |sfx|..] == sfx
      && r[..|r| - |sfx|] == Grouped(q)
      && IsGroupedNumeral(r[..|r| - |sfx|])
      && IsNumeral(r[..|r| - |sfx|])
      && ReadNumber(r[..|r| - |sfx|]) == q
      && q * Unit(num) <= num as nat < (q + 1) * Unit(num)
      && '.' !in r
  {
    var n := num as nat;
    var r, sfx := KiloFormat(num), Suffix(num);
    var q := n / Unit(num);
    ReadGrouped(q);
    GroupedIsNumeral(q);
    GroupedShape(q);
    if n >= 1000000 {
      assert q == n / 1000000 && sfx == "M";
    } else if n >= 10000 {
      assert q == n / 1000 && sfx == "K";
    } else {
      assert q == n && sfx == "";
    }
    assert r[..|r| - |sfx|] == Grouped(q);
  }

  /** Below a million: plain, grouped, and thousands with a "K". */
  lemma KiloFormatExamples()
    ensures KiloFormat(950) == "950"
    ensures KiloFormat(1234) == "1,234"
    ensures KiloFormat(15000) == "15K"
    ensures KiloFormat(15999) == "15K"
    ensures KiloFormat(150000) == "150K"
  {
    assert Digits(15) == "15";
    assert Digits(150) == "150";
    assert Digits(950) == "950";
    assert Grouped(1234) == "1,234";
  }

  /** Millions keep their whole part, grouped, with an "M". */
  lemma KiloFormatMillionExamples()
    ensures KiloFormat(1500000) == "1M"
    ensures KiloFormat(150000000) == "150M"
    ensures KiloFormat(4294967295) == "4,294M"
  {
    assert Digits(1) == "1";
    assert Digits(150) == "150";
    assert Digits(4) == "4";
    assert Grouped(4294) == "4,294";
  }

  // ---------------------------------------------------------------------------
  // Truncate
  // ---------------------------------------------------------------------------

  /** The exception string.Substring throws for a negative length. */
  datatype TruncateError = ArgumentOutOfRange

  function Min(a: int, b: int): int { if a <= b then a else b }

  /** Extensions.Truncate on a possibly-null string. */
  function Truncate(value: Option<string>, maxLength: int): (r: Result<Option<string>, TruncateError>)
    ensures value.None? ==> r == Success(None)
    ensures value == Some("") ==> r == Success(value)
    ensures r.Failure? <==> value.Some? && value.value != [] && maxLength < 0
    ensures r.Success? && value.Some? ==>
      && r.value.Some?
      && |r.value.value| <= |value.value|
      && r.value.value == value.value[..|r.value.value|]
      && (maxLength >= 0 ==> |r.value.value| == Min(|value.value|, maxLength))
  {
    match value
    case None => Success(None)
    case Some(s) =>
      if s == [] then Success(value)
      else if |s| <= maxLength then Success(value)
      else if maxLength < 0 then Failure(ArgumentOutOfRange)
      else Success(Some(s[..maxLength]))
  }

  /** Truncating twice to the same length is truncating once. */
  lemma TruncateIdempotent(value: Option<string>, maxLength: int)
    requires Truncate(value, maxLength).Success?
    ensures Truncate(Truncate(value, maxLength).value, maxLength) == Truncate(value, maxLength)
  {
  }

  lemma TruncateExamples()
    ensures Truncate(Some("abcdefghij"), 5) == Success(Some("abcde"))
    ensures Truncate(Some(""), 5) == Success(Some(""))
    ensures Truncate(None, 5) == Success(None)
  {
    assert "abcdefghij"[..5] == "abcde";
  }

  /** A name label: a non-null string truncated to a non-negative length. */
  function TruncateName(s: string, maxLength: nat): (r: string)
    ensures |r| == Min(|s|, maxLength) && r == s[..|r|]
  {
    var t := Truncate(Some(s), maxLength);
    assert t.Success? && t.value.Some?;
    t.value.value
  }
}
