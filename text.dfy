/**
 * String helpers standing in for the JavaScript built-ins the screens use:
 * `toUpperCase`, `charAt(0).toUpperCase() + slice(1)`, `join('; ')` and the
 * `[0-9]` character class. Only ASCII letters are case-mapped.
 */
module Text {

  predicate IsLower(c: char) { 'a' <= c <= 'z' }

  predicate IsDigit(c: char) { '0' <= c <= '9' }

  /** `toUpperCase` on one character (ASCII letters only). */
  function UpperChar(c: char): (r: char)
    ensures !IsLower(r)
    ensures IsLower(c) ==> r as int == c as int - 32
    ensures !IsLower(c) ==> r == c
  {
    if IsLower(c) then (c as int - 32) as char else c
  }

  /** `s.toUpperCase()`. */
  function Upper(s: string): (r: string)
    ensures |r| == |s|
    ensures forall i :: 0 <= i < |s| ==> r[i] == UpperChar(s[i])
  {
    if s == [] then [] else [UpperChar(s[0])] + Upper(s[1..])
  }


  /** The first character upper-cased and the rest kept; the empty string stays empty. */
  function Capitalize(s: string): (r: string)
    ensures |r| == |s|
    ensures s != [] ==> r[0] == UpperChar(s[0]) && r[1..] == s[1..]
  {
    if s == [] then [] else [UpperChar(s[0])] + s[1..]
  }

  /** The two document-kind words, capitalised. */
  lemma CapitalizedKindWords()
    ensures Capitalize("quote") == "Quote"
    ensures Capitalize("invoice") == "Invoice"
  {
    assert UpperChar('q') == 'Q' && UpperChar('i') == 'I';
    assert "quote"[1..] == "uote" && "invoice"[1..] == "nvoice";
    assert ['Q'] + "uote" == "Quote";
    assert ['I'] + "nvoice" == "Invoice";
  }

  /** Every character is in the class `[0-9]` (true of the empty string). */
  predicate AllDigits(s: string)
  {
    s == [] || (IsDigit(s[0]) && AllDigits(s[1..]))
  }

  lemma {:induction false} AllDigitsMeans(s: string)
    ensures AllDigits(s) <==> forall i :: 0 <= i < |s| ==> IsDigit(s[i])
  {
    if s != [] {
      AllDigitsMeans(s[1..]);
      assert forall i :: 1 <= i < |s| ==> s[i] == s[1..][i - 1];
    }
  }

  /** The full-match regular expression `^[0-9]+$`. */
  predicate MatchesDigitsOnly(s: string)
  {
    |s| > 0 && AllDigits(s)
  }

  /** The position of the first c in s, or |s| when there is none; the amount parser's search for the decimal point. */
  function IndexOf(s: string, c: char): (r: nat)
    ensures r <= |s|
    ensures c !in s[..r]
    ensures r < |s| ==> s[r] == c
  {
    if s == [] then 0
    else if s[0] == c then 0
    else 1 + IndexOf(s[1..], c)
  }

  /** `segs.join(sep)`. */
  function Join(segs: seq<string>, sep: string): string
  {
    if |segs| == 0 then ""
    else if |segs| == 1 then segs[0]
    else segs[0] + sep + Join(segs[1..], sep)
  }

  /**
   * Splitting at every "; ". `cur` is the segment read so far. It is the
   * partner of `Join(_, "; ")`: it recovers the segments whenever none of
   * them contains ';'.
   */
  function SplitAt(s: string, cur: string): (r: seq<string>)
    ensures |r| > 0
    decreases |s|
  {
    if |s| == 0 then [cur]
    else if |s| >= 2 && s[0] == ';' && s[1] == ' ' then [cur] + SplitAt(s[2..], "")
    else SplitAt(s[1..], cur + [s[0]])
  }

  function Split(s: string): seq<string>
  {
    SplitAt(s, "")
  }

  lemma {:induction false} SplitSkipsPlainText(w: string, t: string, cur: string)
    requires ';' !in w
    ensures SplitAt(w + t, cur) == SplitAt(t, cur + w)
    decreases |w|
  {
    if w == [] {
      assert w + t == t;
      assert cur + w == cur;
    } else {
      assert (w + t)[0] == w[0];
      assert (w + t)[1..] == w[1..] + t;
      SplitSkipsPlainText(w[1..], t, cur + [w[0]]);
      assert cur + [w[0]] + w[1..] == cur + w;
    }
  }

  lemma {:induction false} SplitJoin(segs: seq<string>)
    requires |segs| > 0
    requires forall i :: 0 <= i < |segs| ==> ';' !in segs[i]
    ensures Split(Join(segs, "; ")) == segs
    decreases |segs|
  {
    if |segs| == 1 {
      SplitSkipsPlainText(segs[0], "", "");
      assert segs[0] + "" == segs[0];
      assert "" + segs[0] == segs[0];
    } else {
      var rest := Join(segs[1..], "; ");
      assert Join(segs, "; ") == segs[0] + ("; " + rest);
      SplitSkipsPlainText(segs[0], "; " + rest, "");
      assert "" + segs[0] == segs[0];
      assert ("; " + rest)[2..] == rest;
      SplitJoin(segs[1..]);
      assert [segs[0]] + segs[1..] == segs;
    }
  }
}
