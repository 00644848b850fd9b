/**
 * The JavaScript string operations the two pages rely on: the whitespace class of `\s` and
 * `String.prototype.trim`, ASCII lower-casing, `includes`, `split(' ')` / `join(' ')`,
 * `replace(/\s+/g, c)` and the decimal rendering of a number in a template literal.
 */
module Text {

  /** The characters that `\s` matches and that `trim` removes (WhiteSpace and LineTerminator). */
  predicate IsSpace(c: char) {
    || c == ' ' || c == '\t' || c == '\n' || c == '\U{B}' || c == '\U{C}' || c == '\r'
    || c == '\U{A0}' || c == '\U{1680}' || ('\U{2000}' <= c <= '\U{200A}')
    || c == '\U{2028}' || c == '\U{2029}' || c == '\U{202F}' || c == '\U{205F}'
    || c == '\U{3000}' || c == '\U{FEFF}'
  }

  /** Every character of `s` is whitespace (the empty string included). */
  predicate Blank(s: string) {
    forall i :: 0 <= i < |s| ==> IsSpace(s[i])
  }

  /** Leading whitespace removed: the longest blank prefix is cut off. */
  function TrimStart(s: string): (r: string)
    ensures |r| <= |s| && r == s[|s| - |r|..]
    ensures Blank(s[..|s| - |r|])
    ensures r != [] ==> !IsSpace(r[0])
  {
    if s != [] && IsSpace(s[0]) then TrimStart(s[1..]) else s
  }

  /** Trailing whitespace removed: the longest blank suffix is cut off. */
  function TrimEnd(s: string): (r: string)
    ensures |r| <= |s| && r == s[..|r|]
    ensures Blank(s[|r|..])
    ensures r != [] ==> !IsSpace(r[|r| - 1])
  {
    if s != [] && IsSpace(s[|s| - 1]) then TrimEnd(s[..|s| - 1]) else s
  }

  /** `s.trim()`; it is empty exactly when `s` is blank. */
  function Trim(s: string): (r: string)
    ensures r == [] <==> Blank(s)
    ensures r != [] ==> !IsSpace(r[0]) && !IsSpace(r[|r| - 1])
  {
    var t := TrimStart(s);
    assert s == s[..|s| - |t|] + t;
    TrimEnd(t)
  }

  /** ASCII lower-casing of one character. */
  function LowerChar(c: char): (d: char)
    ensures !('A' <= d <= 'Z')
    ensures 'A' <= c <= 'Z' ==> d as int == c as int + 32
    ensures !('A' <= c <= 'Z') ==> d == c
  {
    if 'A' <= c <= 'Z' then (c as int + 32) as char else c
  }

  /** `s.toLowerCase()` restricted to ASCII letters. */
  function Lower(s: string): (r: string)
    ensures |r| == |s|
    ensures forall i :: 0 <= i < |s| ==> r[i] == LowerChar(s[i])
  {
    if s == [] then [] else [LowerChar(s[0])] + Lower(s[1..])
  }

  /** `s.includes(q)`: `q` occurs in `s` at some offset. */
  predicate Contains(s: string, q: string)
    ensures Contains(s, q) ==> |q| <= |s|
    ensures q == [] ==> Contains(s, q)
    decreases |s|
  {
    q <= s || (s != [] && Contains(s[1..], q))
  }

  /** Contains means: some slice of `s` is `q`. */
  lemma {:induction false} ContainsAt(s: string, q: string, i: nat)
    requires i + |q| <= |s| && s[i..i + |q|] == q
    ensures Contains(s, q)
    decreases i
  {
    if i > 0 {
      assert s[1..][i - 1..i - 1 + |q|] == q;
      ContainsAt(s[1..], q, i - 1);
    }
  }

  /** And conversely: when `s` contains `q`, some slice of `s` is `q`. */
  lemma {:induction false} ContainsWitness(s: string, q: string)
    requires Contains(s, q)
    ensures exists i :: 0 <= i <= |s| && q <= s[i..]
    decreases |s|
  {
    if q <= s {
      assert s[0..] == s;
    } else {
      ContainsWitness(s[1..], q);
      var i :| 0 <= i <= |s[1..]| && q <= s[1..][i..];
      assert s[1..][i..] == s[i + 1..];
    }
  }

  /** Whatever stands between two texts is contained in their concatenation. */
  lemma ContainsMiddle(a: string, b: string, c: string)
    ensures Contains(a + b + c, b)
  {
    assert (a + b + c)[|a|..|a| + |b|] == b;
    ContainsAt(a + b + c, b, |a|);
  }

  /** Number of `' '` characters in `s`. */
  function Spaces(s: string): nat {
    if s == [] then 0 else (if s[0] == ' ' then 1 else 0) + Spaces(s[1..])
  }

  /** `s.split(' ')`: the pieces between single spaces, empty pieces kept. */
  function Split(s: string): (r: seq<string>)
    ensures |r| == Spaces(s) + 1
    ensures forall i :: 0 <= i < |r| ==> ' ' !in r[i]
  {
    if s == [] then [""]
    else
      var rest := Split(s[1..]);
      if s[0] == ' ' then [""] + rest
      else [[s[0]] + rest[0]] + rest[1..]
  }

  /** `words.join(' ')`. */
  function Join(words: seq<string>): string
    requires |words| >= 1
  {
    if |words| == 1 then words[0] else words[0] + " " + Join(words[1..])
  }

  /** Splitting on spaces and joining with spaces gives the text back. */
  lemma {:induction false} JoinSplit(s: string)
    ensures Join(Split(s)) == s
  {
    if s != [] {
      JoinSplit(s[1..]);
      var rest := Split(s[1..]);
      if s[0] != ' ' {
        JoinConsChar(s[0], rest);
      }
    }
  }

  /** Prepending a character to the first word prepends it to the joined text. */
  lemma JoinConsChar(c: char, words: seq<string>)
    requires |words| >= 1
    ensures Join([[c] + words[0]] + words[1..]) == [c] + Join(words)
  {
    var w := [[c] + words[0]] + words[1..];
    if |words| > 1 {
      assert w[1..] == words[1..];
    }
  }

  /**
   * The prefix of `s` that ends just before its (n+1)-th space, or all of `s` when it has at most
   * `n` spaces.
   */
  function BeforeSpace(s: string, n: nat): (p: string)
    ensures p <= s
    ensures Spaces(p) == if Spaces(s) < n then Spaces(s) else n
    ensures p == s || s[|p|] == ' '
  {
    if s == [] then []
    else if s[0] == ' ' then (if n == 0 then [] else " " + BeforeSpace(s[1..], n - 1))
    else [s[0]] + BeforeSpace(s[1..], n)
  }

  /** The first k pieces of `split(' ')` joined with `' '` (JavaScript `slice(0, k)`). */
  function FirstWords(s: string, k: nat): (r: string)
    requires k >= 1
    ensures Spaces(s) < k ==> r == s
  {
    var words := Split(s);
    JoinSplit(s);
    assert words[..|words|] == words;
    Join(words[..if |words| < k then |words| else k])
  }

  /** Taking the first n+1 words and joining them is cutting the text before its (n+1)-th space. */
  lemma {:induction false} FirstWordsIsPrefix(s: string, n: nat)
    ensures FirstWords(s, n + 1) == BeforeSpace(s, n)
    decreases |s|
  {
    if s != [] {
      if s[0] == ' ' {
        if n > 0 {
          FirstWordsIsPrefix(s[1..], n - 1);
          FirstWordsAfterSpace(s, n);
        }
      } else {
        FirstWordsIsPrefix(s[1..], n);
        FirstWordsAfterLetter(s, n);
      }
    }
  }

  lemma FirstWordsAfterSpace(s: string, n: nat)
    requires s != [] && s[0] == ' ' && n > 0
    ensures FirstWords(s, n + 1) == " " + FirstWords(s[1..], n)
  {
    var rest := Split(s[1..]);
    var m := if |rest| < n then |rest| else n;
    assert Split(s) == [""] + rest;
    assert Split(s)[..m + 1] == [""] + rest[..m];
    assert ([""] + rest[..m])[1..] == rest[..m];
  }

  lemma FirstWordsAfterLetter(s: string, n: nat)
    requires s != [] && s[0] != ' '
    ensures FirstWords(s, n + 1) == [s[0]] + FirstWords(s[1..], n + 1)
  {
    var rest := Split(s[1..]);
    var m := if |rest| < n + 1 then |rest| else n + 1;
    assert Split(s) == [[s[0]] + rest[0]] + rest[1..];
    assert Split(s)[..m] == [[s[0]] + rest[..m][0]] + rest[..m][1..];
    JoinConsChar(s[0], rest[..m]);
  }

  /** `s.replace(/\s+/g, [sub])`: every run of whitespace becomes one `sub`. */
  function ReplaceSpaceRuns(s: string, sub: char): (r: string)
    requires !IsSpace(sub)
    ensures |r| <= |s|
    decreases |s|
  {
    if s == [] then []
    else if IsSpace(s[0]) then [sub] + ReplaceSpaceRuns(TrimStart(s[1..]), sub)
    else [s[0]] + ReplaceSpaceRuns(s[1..], sub)
  }

  /** No whitespace is left after the replacement. */
  lemma {:induction false} ReplaceSpaceRunsNoWhitespace(s: string, sub: char)
    requires !IsSpace(sub)
    ensures forall i :: 0 <= i < |ReplaceSpaceRuns(s, sub)| ==> !IsSpace(ReplaceSpaceRuns(s, sub)[i])
    decreases |s|
  {
    if s != [] {
      var t := if IsSpace(s[0]) then TrimStart(s[1..]) else s[1..];
      ReplaceSpaceRunsNoWhitespace(t, sub);
    }
  }

  /** `s` without its whitespace and without the character `sub`. */
  function Visible(s: string, sub: char): string {
    if s == [] then []
    else (if IsSpace(s[0]) || s[0] == sub then [] else [s[0]]) + Visible(s[1..], sub)
  }

  /** Dropping leading whitespace does not change the visible characters. */
  lemma {:induction false} VisibleTrimStart(s: string, sub: char)
    ensures Visible(TrimStart(s), sub) == Visible(s, sub)
  {
    if s != [] && IsSpace(s[0]) {
      VisibleTrimStart(s[1..], sub);
    }
  }

  /** The replacement keeps every non-whitespace character, in order. */
  lemma {:induction false} ReplaceSpaceRunsKeepsVisible(s: string, sub: char)
    requires !IsSpace(sub)
    ensures Visible(ReplaceSpaceRuns(s, sub), sub) == Visible(s, sub)
  {
    if s != [] {
      if IsSpace(s[0]) {
        ReplaceSpaceRunsKeepsVisible(TrimStart(s[1..]), sub);
        VisibleTrimStart(s[1..], sub);
      } else {
        ReplaceSpaceRunsKeepsVisible(s[1..], sub);
      }
    }
  }

  /** Text without whitespace is left as it is. */
  lemma {:induction false} ReplaceSpaceRunsNoSpace(s: string, sub: char)
    requires !IsSpace(sub)
    requires forall i :: 0 <= i < |s| ==> !IsSpace(s[i])
    ensures ReplaceSpaceRuns(s, sub) == s
  {
    if s != [] {
      ReplaceSpaceRunsNoSpace(s[1..], sub);
    }
  }

  /** A character that is not whitespace is copied as it is. */
  lemma ReplaceSpaceRunsHead(c: char, s: string, sub: char)
    requires !IsSpace(sub) && !IsSpace(c)
    ensures ReplaceSpaceRuns([c] + s, sub) == [c] + ReplaceSpaceRuns(s, sub)
  {
    assert ([c] + s)[1..] == s;
  }

  /** Trimming a blank text put in front of `b` gives `b` back when `b` does not start with whitespace. */
  lemma {:induction false} TrimStartBlank(w: string, b: string)
    requires Blank(w)
    requires b == [] || !IsSpace(b[0])
    ensures TrimStart(w + b) == b
  {
    if w != [] {
      assert (w + b)[1..] == w[1..] + b;
      TrimStartBlank(w[1..], b);
    } else {
      assert w + b == b;
    }
  }

  /** Trimming never reaches past a text that holds a non-whitespace character. */
  lemma {:induction false} TrimStartAppend(x: string, y: string)
    requires !Blank(x)
    ensures TrimStart(x + y) == TrimStart(x) + y
  {
    assert (x + y)[0] == x[0];
    if IsSpace(x[0]) {
      assert (x + y)[1..] == x[1..] + y;
      TrimStartAppend(x[1..], y);
    }
  }

  /**
   * One whole run of whitespace `w` (nothing but whitespace on either side of it) becomes
   * exactly one `sub`, and the texts on either side are replaced independently.
   */
  lemma {:induction false} ReplaceSpaceRunsRun(a: string, w: string, b: string, sub: char)
    requires !IsSpace(sub)
    requires a == [] || !IsSpace(a[|a| - 1])
    requires w != [] && Blank(w)
    requires b == [] || !IsSpace(b[0])
    ensures ReplaceSpaceRuns(a + w + b, sub) == ReplaceSpaceRuns(a, sub) + [sub] + ReplaceSpaceRuns(b, sub)
    decreases |a|
  {
    if a == [] {
      assert a + w + b == w + b;
      ReplaceSpaceRunsLeadingRun(w, b, sub);
    } else {
      var c, x := a[0], a[1..];
      assert a == [c] + x;
      if !IsSpace(c) {
        ReplaceSpaceRunsRun(x, w, b, sub);
        RunAfterVisibleHead(c, x, w, b, sub);
      } else {
        assert !IsSpace(x[|x| - 1]);
        assert !Blank(x);
        var u := TrimStart(x);
        assert u != [] && u[|u| - 1] == x[|x| - 1];
        ReplaceSpaceRunsRun(u, w, b, sub);
        RunAfterSpaceHead(c, x, w, b, sub);
      }
    }
  }

  /** A leading run of whitespace becomes one `sub`. */
  lemma ReplaceSpaceRunsLeadingRun(w: string, b: string, sub: char)
    requires !IsSpace(sub)
    requires w != [] && Blank(w)
    requires b == [] || !IsSpace(b[0])
    ensures ReplaceSpaceRuns(w + b, sub) == [sub] + ReplaceSpaceRuns(b, sub)
  {
    assert (w + b)[0] == w[0];
    assert (w + b)[1..] == w[1..] + b;
    TrimStartBlank(w[1..], b);
  }

  lemma RunAfterVisibleHead(c: char, x: string, w: string, b: string, sub: char)
    requires !IsSpace(sub) && !IsSpace(c)
    requires ReplaceSpaceRuns(x + w + b, sub) == ReplaceSpaceRuns(x, sub) + [sub] + ReplaceSpaceRuns(b, sub)
    ensures ReplaceSpaceRuns([c] + x + w + b, sub) == ReplaceSpaceRuns([c] + x, sub) + [sub] + ReplaceSpaceRuns(b, sub)
  {
    var p, q := ReplaceSpaceRuns(x, sub), ReplaceSpaceRuns(b, sub);
    Assoc4([c], x, w, b);
    ReplaceSpaceRunsHead(c, x + w + b, sub);
    ReplaceSpaceRunsHead(c, x, sub);
    Regroup([c], p, [sub], q);
  }

  lemma RunAfterSpaceHead(c: char, x: string, w: string, b: string, sub: char)
    requires !IsSpace(sub) && IsSpace(c)
    requires !Blank(x)
    requires ReplaceSpaceRuns(TrimStart(x) + w + b, sub)
          == ReplaceSpaceRuns(TrimStart(x), sub) + [sub] + ReplaceSpaceRuns(b, sub)
    ensures ReplaceSpaceRuns([c] + x + w + b, sub) == ReplaceSpaceRuns([c] + x, sub) + [sub] + ReplaceSpaceRuns(b, sub)
  {
    var u := TrimStart(x);
    var p, q := ReplaceSpaceRuns(u, sub), ReplaceSpaceRuns(b, sub);
    TrimStartAppend(x, w + b);
    Assoc4([c], x, w, b);
    ConsParts(c, x + (w + b));
    ConsParts(c, x);
    Assoc3(u, w, b);
    Regroup([sub], p, [sub], q);
  }

  lemma ConsParts<T>(c: T, y: seq<T>)
    ensures ([c] + y)[0] == c && ([c] + y)[1..] == y
  {
  }

  lemma Assoc3<T>(x: seq<T>, y: seq<T>, z: seq<T>)
    ensures x + (y + z) == x + y + z
  {
  }

  lemma Assoc4<T>(c: seq<T>, x: seq<T>, y: seq<T>, z: seq<T>)
    ensures c + x + y + z == c + (x + y + z) && x + y + z == x + (y + z)
  {
  }

  lemma Regroup<T>(x: seq<T>, y: seq<T>, z: seq<T>, v: seq<T>)
    ensures x + (y + z + v) == (x + y) + z + v
  {
  }

  function DigitChar(d: nat): (c: char)
    requires d < 10
  {
    "0123456789"[d]
  }

  predicate IsDigit(c: char) {
    '0' <= c <= '9'
  }

  /** The decimal text of a number, as a template literal renders `${n}`. */
  function Decimal(n: nat): (r: string)
    ensures r != []
    ensures forall i :: 0 <= i < |r| ==> IsDigit(r[i])
    ensures |r| > 1 ==> r[0] != '0'
  {
    if n < 10 then [DigitChar(n)] else Decimal(n / 10) + [DigitChar(n % 10)]
  }

  /** The number a string of decimal digits denotes. */
  function ParseDecimal(s: string): nat
    requires forall i :: 0 <= i < |s| ==> IsDigit(s[i])
  {
    if s == [] then 0
    else
      assert IsDigit(s[|s| - 1]);
      ParseDecimal(s[..|s| - 1]) * 10 + (s[|s| - 1] as int - '0' as int)
  }

  /** Reading the decimal text back gives the number. */
  lemma {:induction false} ParseDecimalOfDecimal(n: nat)
    ensures ParseDecimal(Decimal(n)) == n
  {
    if n >= 10 {
      ParseDecimalOfDecimal(n / 10);
      var r := Decimal(n);
      assert r[..|r| - 1] == Decimal(n / 10);
    }
  }

  /** Different numbers have different decimal texts. */
  lemma DecimalInjective(a: nat, b: nat)
    requires Decimal(a) == Decimal(b)
    ensures a == b
  {
    ParseDecimalOfDecimal(a);
    ParseDecimalOfDecimal(b);
  }
}
