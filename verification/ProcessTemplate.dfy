/** Expansion of numbered process names and the way back to the program name. */
module ProcessTemplate {
  import opened Common

  const PROGRAM := "%(program_name)s"
  const MARKER := "%(process_num)"

  // ---------- searching ----------

  ghost predicate OccursAt(s: string, sub: string, k: int) {
    0 <= k && k + |sub| <= |s| && s[k..k + |sub|] == sub
  }

  /** The first index at which `sub` occurs, or -1. */
  function IndexOf(s: string, sub: string): (r: int)
    ensures r == -1 || 0 <= r <= |s| - |sub|
  {
    if |s| < |sub| then -1
    else if s[..|sub|] == sub then 0
    else if s == "" then -1
    else
      var r := IndexOf(s[1..], sub);
      if r == -1 then -1 else r + 1
  }

  lemma {:induction false} IndexOccurs(s: string, sub: string)
    requires sub != "" && IndexOf(s, sub) != -1
    ensures OccursAt(s, sub, IndexOf(s, sub))
  {
    if s[..|sub|] != sub {
      IndexOccurs(s[1..], sub);
      var r := IndexOf(s[1..], sub);
      assert s[1..][r..r + |sub|] == s[r + 1..r + 1 + |sub|];
    }
  }

  lemma {:induction false} OccursInTail(s: string, sub: string, k: int)
    requires k > 0 && OccursAt(s, sub, k)
    ensures OccursAt(s[1..], sub, k - 1)
  {
    assert s[1..][k - 1..k - 1 + |sub|] == s[k..k + |sub|];
  }

  lemma {:induction false} NoneBeforeIndex(s: string, sub: string, k: int)
    requires sub != "" && OccursAt(s, sub, k)
    ensures 0 <= IndexOf(s, sub) <= k
    decreases k
  {
    if k > 0 {
      OccursInTail(s, sub, k);
      NoneBeforeIndex(s[1..], sub, k - 1);
    }
  }

  lemma {:induction false} IndexOfIsFirst(s: string, sub: string)
    requires sub != ""
    ensures IndexOf(s, sub) != -1 ==> OccursAt(s, sub, IndexOf(s, sub))
    ensures forall k :: OccursAt(s, sub, k) ==> 0 <= IndexOf(s, sub) <= k
  {
    if IndexOf(s, sub) != -1 {
      IndexOccurs(s, sub);
    }
    forall k | OccursAt(s, sub, k) ensures 0 <= IndexOf(s, sub) <= k {
      NoneBeforeIndex(s, sub, k);
    }
  }

  /** There is only one first index. */
  lemma {:induction false} IndexIs(s: string, sub: string, k: nat)
    requires OccursAt(s, sub, k) && sub != ""
    requires forall j :: 0 <= j < k ==> !OccursAt(s, sub, j)
    ensures IndexOf(s, sub) == k
  {
    IndexOfIsFirst(s, sub);
  }

  function ReplaceAll(s: string, sub: string, text: string): string
    requires sub != ""
    decreases |s|
  {
    var i := IndexOf(s, sub);
    if i == -1 then s else s[..i] + text + ReplaceAll(s[i + |sub|..], sub, text)
  }

  /** The parts with a separator between each two. */
  function Joined(parts: seq<string>, sub: string): string {
    if parts == [] then ""
    else if |parts| == 1 then parts[0]
    else parts[0] + sub + Joined(parts[1..], sub)
  }

  /** The separator occurs in the joined text where it stands, and nowhere before. */
  ghost predicate SeparatedBy(parts: seq<string>, sub: string) {
    parts != [] &&
    IndexOf(Joined(parts, sub), sub) == (if |parts| == 1 then -1 else |parts[0]|) &&
    (|parts| > 1 ==> SeparatedBy(parts[1..], sub))
  }

  /** Every occurrence is replaced, and nothing else changes. */
  lemma {:induction false} ReplacesEverywhere(parts: seq<string>, sub: string, text: string)
    requires sub != "" && SeparatedBy(parts, sub)
    ensures ReplaceAll(Joined(parts, sub), sub, text) == Joined(parts, text)
    decreases |parts|
  {
    if |parts| > 1 {
      var s, rest := Joined(parts, sub), Joined(parts[1..], sub);
      assert s == parts[0] + sub + rest;
      assert s[..|parts[0]|] == parts[0] && s[|parts[0]| + |sub|..] == rest;
      ReplacesEverywhere(parts[1..], sub, text);
    }
  }

  // ---------- numbers ----------

  predicate IsDigit(c: char) {
    '0' <= c <= '9'
  }

  predicate AllDigits(s: string) {
    forall i :: 0 <= i < |s| ==> IsDigit(s[i])
  }

  function Digit(d: nat): char
    requires d < 10
  {
    ['0', '1', '2', '3', '4', '5', '6', '7', '8', '9'][d]
  }

  function DigitValue(c: char): (v: nat)
    ensures v < 10
  {
    if IsDigit(c) then (c - '0') as nat else 0
  }

  /** Decimal notation. */
  function Itoa(n: nat): string {
    if n < 10 then [Digit(n)] else Itoa(n / 10) + [Digit(n % 10)]
  }

  /** The number a text denotes when everything but digits counts as zero. */
  function Value(s: string): nat {
    if s == "" then 0 else 10 * Value(s[..|s| - 1]) + DigitValue(s[|s| - 1])
  }

  lemma {:induction false} ItoaFacts(n: nat)
    ensures AllDigits(Itoa(n)) && Itoa(n) != "" && Value(Itoa(n)) == n
  {
    assert forall d: nat :: d < 10 ==> IsDigit(Digit(d)) && DigitValue(Digit(d)) == d;
    if n >= 10 {
      ItoaFacts(n / 10);
      assert Itoa(n)[..|Itoa(n)| - 1] == Itoa(n / 10);
    } else {
      assert Itoa(n)[..0] == "";
    }
  }

  lemma {:induction false} ItoaGrows(n: nat, m: nat)
    requires n <= m
    ensures |Itoa(n)| <= |Itoa(m)|
  {
    if m >= 10 && n >= 10 {
      ItoaGrows(n / 10, m / 10);
    }
  }

  function Repeat(c: char, k: nat): string {
    if k == 0 then "" else [c] + Repeat(c, k - 1)
  }

  lemma {:induction false} RepeatFacts(c: char, k: nat)
    ensures |Repeat(c, k)| == k && forall i :: 0 <= i < k ==> Repeat(c, k)[i] == c
  {
    if k > 0 {
      RepeatFacts(c, k - 1);
    }
  }

  lemma {:induction false} ValueOfPadded(pad: string, s: string)
    requires forall i :: 0 <= i < |pad| ==> DigitValue(pad[i]) == 0
    ensures Value(pad + s) == Value(s)
    decreases |s|
  {
    if s == "" {
      assert pad + s == pad;
      ValueOfZeros(pad);
    } else {
      assert (pad + s)[..|pad + s| - 1] == pad + s[..|s| - 1];
      ValueOfPadded(pad, s[..|s| - 1]);
    }
  }

  lemma {:induction false} ValueOfZeros(pad: string)
    requires forall i :: 0 <= i < |pad| ==> DigitValue(pad[i]) == 0
    ensures Value(pad) == 0
  {
    if pad != "" {
      ValueOfZeros(pad[..|pad| - 1]);
    }
  }

  // ---------- the integer verb ----------

  /** A width with leading zeros asks for zero padding. */
  function Width(digits: string): nat {
    Value(digits)
  }

  predicate ZeroPadded(digits: string) {
    digits != "" && digits[0] == '0'
  }

  /** The formatter gives up when the width without its last digit exceeds a million. */
  predicate WidthAccepted(digits: string) {
    Width(digits) / 10 <= 1_000_000
  }

  /** What the formatter prints for `%<digits>d`. */
  function Sprintf(digits: string, n: nat): string {
    if !WidthAccepted(digits) then "%!(NOVERB)%!(EXTRA int=" + Itoa(n) + ")"
    else if Width(digits) <= |Itoa(n)| then Itoa(n)
    else Repeat(if ZeroPadded(digits) then '0' else ' ', Width(digits) - |Itoa(n)|) + Itoa(n)
  }

  lemma {:induction false} SprintfGrows(digits: string, n: nat, m: nat)
    requires n <= m
    ensures |Sprintf(digits, n)| <= |Sprintf(digits, m)|
  {
    ItoaGrows(n, m);
    if WidthAccepted(digits) && Width(digits) > |Itoa(n)| {
      RepeatFacts(if ZeroPadded(digits) then '0' else ' ', Width(digits) - |Itoa(n)|);
      if Width(digits) > |Itoa(m)| {
        RepeatFacts(if ZeroPadded(digits) then '0' else ' ', Width(digits) - |Itoa(m)|);
      }
    }
  }

  /** The printed text tells the number. */
  lemma {:induction false} SprintfValue(digits: string, n: nat)
    ensures Value(Sprintf(digits, n)) == if WidthAccepted(digits) then n else 10 * n
  {
    ItoaFacts(n);
    if !WidthAccepted(digits) {
      var pad := "%!(NOVERB)%!(EXTRA int=";
      var s := Itoa(n) + ")";
      assert s[..|s| - 1] == Itoa(n);
      ValueOfPadded(pad, s);
      assert pad + Itoa(n) + ")" == pad + s;
    } else if Width(digits) > |Itoa(n)| {
      var c := if ZeroPadded(digits) then '0' else ' ';
      RepeatFacts(c, Width(digits) - |Itoa(n)|);
      ValueOfPadded(Repeat(c, Width(digits) - |Itoa(n)|), Itoa(n));
    }
  }

  /** A text that neither continues a marker nor contains the start of one. */
  ghost predicate Inert(s: string) {
    && s != "" && s[0] !in MARKER[1..]
    && forall k :: 0 <= k < |s| && s[k] == '%' ==> k + 1 < |s| && s[k + 1] != '('
  }

  lemma {:induction false} PaddedShape(digits: string, n: nat)
    requires WidthAccepted(digits)
    ensures Sprintf(digits, n) != ""
    ensures forall k :: 0 <= k < |Sprintf(digits, n)| ==> IsDigit(Sprintf(digits, n)[k]) || Sprintf(digits, n)[k] == ' '
    ensures ZeroPadded(digits) ==> AllDigits(Sprintf(digits, n))
  {
    ItoaFacts(n);
    if Width(digits) > |Itoa(n)| {
      RepeatFacts(if ZeroPadded(digits) then '0' else ' ', Width(digits) - |Itoa(n)|);
    }
  }

  /** The number is printed in decimal, filled up to the width with zeros or blanks from the left. */
  lemma {:induction false} SprintfPads(digits: string, n: nat) returns (pad: string)
    requires WidthAccepted(digits)
    ensures Sprintf(digits, n) == pad + Itoa(n)
    ensures |Sprintf(digits, n)| == if Value(digits) > |Itoa(n)| then Value(digits) else |Itoa(n)|
    ensures forall i :: 0 <= i < |pad| ==> pad[i] == if digits != "" && digits[0] == '0' then '0' else ' '
  {
    if Width(digits) <= |Itoa(n)| {
      pad := "";
      assert pad + Itoa(n) == Itoa(n);
    } else {
      var c := if ZeroPadded(digits) then '0' else ' ';
      pad := Repeat(c, Width(digits) - |Itoa(n)|);
      RepeatFacts(c, Width(digits) - |Itoa(n)|);
      assert digits != "";
    }
  }

  lemma {:induction false} NoVerbShape(n: nat)
    ensures Inert("%!(NOVERB)%!(EXTRA int=" + Itoa(n) + ")")
  {
    var pad := "%!(NOVERB)%!(EXTRA int=";
    var s := pad + Itoa(n) + ")";
    ItoaFacts(n);
    assert s[0] == '%' && s[1] == '!' && s[10] == '%' && s[11] == '!';
    forall k | 0 <= k < |s| ensures s[k] == '%' ==> k == 0 || k == 10 {
      if k < |pad| {
        assert s[k] == pad[k];
      } else if k < |pad| + |Itoa(n)| {
        assert s[k] == Itoa(n)[k - |pad|];
      }
    }
  }

  lemma {:induction false} SprintfIsInert(digits: string, n: nat)
    ensures Inert(Sprintf(digits, n))
  {
    if WidthAccepted(digits) {
      PaddedShape(digits, n);
    } else {
      NoVerbShape(n);
    }
  }

  // ---------- expanding the number ----------

  predicate IsValidIntFormat(s: string) {
    s != "" && s[|s| - 1] == 'd' && AllDigits(s[..|s| - 1])
  }

  /** The first marker of a template: the text before it, its width digits, and the text after it. */
  datatype Piece = Piece(before: string, digits: string, after: string)

  function FirstPiece(s: string): Option<Piece> {
    var start := IndexOf(s, MARKER);
    if start == -1 then None else PieceAfter(s[..start], s[start + |MARKER|..])
  }

  /** The piece whose marker stands between `before` and `afterMarker`, if its format is valid. */
  function PieceAfter(before: string, afterMarker: string): Option<Piece> {
    var dIdx := IndexOf(afterMarker, "d");
    if dIdx == -1 || !IsValidIntFormat(afterMarker[..dIdx + 1]) then None
    else Some(Piece(before, afterMarker[..dIdx], afterMarker[dIdx + 1..]))
  }

  lemma {:induction false} FirstPieceShrinks(s: string)
    requires FirstPiece(s).Some?
    ensures |FirstPiece(s).value.after| < |s|
  {
  }

  /** Markers are expanded from left to right, up to the first one that is malformed. */
  ghost function ExpandNumber(s: string, n: nat): string
    decreases |s|
  {
    var piece := FirstPiece(s);
    if piece.None? then s
    else
      FirstPieceShrinks(s);
      piece.value.before + Sprintf(piece.value.digits, n) + ExpandNumber(piece.value.after, n)
  }

  /** How many markers a text holds. */
  ghost function Markers(s: string): nat
    decreases |s|
  {
    var i := IndexOf(s, MARKER);
    if i == -1 then 0 else 1 + Markers(s[i + |MARKER|..])
  }

  /** No marker can begin in `q`, whatever follows it. */
  ghost predicate Sealed(q: string) {
    forall k :: 0 <= k < |q| ==> Mismatch(q, k)
  }

  ghost predicate Mismatch(q: string, k: nat) {
    exists j :: 0 <= j < |MARKER| && k + j < |q| && q[k + j] != MARKER[j]
  }

  lemma {:induction false} MismatchNoOccurrence(q: string, x: string, k: nat)
    requires k < |q| && Mismatch(q, k)
    ensures !OccursAt(q + x, MARKER, k)
  {
    var j :| 0 <= j < |MARKER| && k + j < |q| && q[k + j] != MARKER[j];
    assert (q + x)[k + j] != MARKER[j];
  }

  lemma {:induction false} OccursBehind(q: string, x: string, sub: string, k: int)
    requires k >= |q| && OccursAt(q + x, sub, k)
    ensures OccursAt(x, sub, k - |q|)
  {
    assert (q + x)[k..k + |sub|] == x[k - |q|..k - |q| + |sub|];
  }

  lemma {:induction false} OccursShifted(q: string, x: string, sub: string, k: int)
    requires OccursAt(x, sub, k)
    ensures OccursAt(q + x, sub, |q| + k)
  {
    assert (q + x)[|q| + k..|q| + k + |sub|] == x[k..k + |sub|];
  }

  /** Behind a text in which nothing begins the search goes on as if that text were not there. */
  lemma {:induction false} IndexBehind(q: string, x: string, sub: string)
    requires sub != "" && forall k :: 0 <= k < |q| ==> !OccursAt(q + x, sub, k)
    ensures IndexOf(q + x, sub) == if IndexOf(x, sub) == -1 then -1 else |q| + IndexOf(x, sub)
  {
    var s := q + x;
    var i, r := IndexOf(s, sub), IndexOf(x, sub);
    if i != -1 {
      IndexOccurs(s, sub);
      OccursBehind(q, x, sub, i);
      NoneBeforeIndex(x, sub, i - |q|);
    }
    if r != -1 {
      IndexOccurs(x, sub);
      OccursShifted(q, x, sub, r);
      NoneBeforeIndex(s, sub, |q| + r);
    }
  }

  lemma {:induction false} SealedIndex(q: string, x: string)
    requires Sealed(q)
    ensures IndexOf(q + x, MARKER) == if IndexOf(x, MARKER) == -1 then -1 else |q| + IndexOf(x, MARKER)
  {
    forall k | 0 <= k < |q| ensures !OccursAt(q + x, MARKER, k) {
      MismatchNoOccurrence(q, x, k);
    }
    IndexBehind(q, x, MARKER);
  }

  /** The text before the first marker, with the printed number in its place, is sealed. */
  lemma {:induction false} ReplacedIsSealed(s: string, i: nat, text: string)
    requires IndexOf(s, MARKER) == i && Inert(text)
    ensures Sealed(s[..i] + text)
  {
    var q := s[..i] + text;
    IndexOfIsFirst(s, MARKER);
    forall k | 0 <= k < |q| ensures Mismatch(q, k) {
      if k >= i {
        assert q[k] == text[k - i];
        assert MARKER[0] == '%' && MARKER[1] == '(';
        if q[k + 0] == MARKER[0] {
          assert q[k + 1] == text[k - i + 1] != MARKER[1];
        }
      } else if k + |MARKER| <= i {
        assert !OccursAt(s, MARKER, k);
        var j := FirstDifference(s[k..k + |MARKER|]);
        assert s[k..k + |MARKER|][j] == s[k + j] == q[k + j];
      } else {
        assert q[k + (i - k)] == text[0] && MARKER[i - k] == MARKER[1..][i - k - 1];
      }
    }
  }

  lemma {:induction false} FirstDifference(t: string) returns (j: nat)
    requires |t| == |MARKER| && t != MARKER
    ensures j < |MARKER| && t[j] != MARKER[j]
  {
    j :| 0 <= j < |MARKER| && t[j] != MARKER[j];
  }

  lemma {:induction false} PieceOfSealed(q: string, x: string)
    requires Sealed(q)
    ensures FirstPiece(q + x) == Prefixed(q, FirstPiece(x))
  {
    SealedIndex(q, x);
    var i := IndexOf(x, MARKER);
    if i != -1 {
      BehindPrefix(q, x, i, i + |MARKER|);
      assert FirstPiece(q + x) == PieceAfter(q + x[..i], x[i + |MARKER|..]);
      PieceShift(q, x[..i], x[i + |MARKER|..]);
    }
  }

  ghost function Prefixed(q: string, p: Option<Piece>): Option<Piece> {
    if p.None? then None else Some(p.value.(before := q + p.value.before))
  }

  lemma {:induction false} PieceShift(q: string, before: string, afterMarker: string)
    ensures PieceAfter(q + before, afterMarker) == Prefixed(q, PieceAfter(before, afterMarker))
  {
  }

  lemma {:induction false} MarkersSealed(q: string, x: string)
    requires Sealed(q)
    ensures Markers(q + x) == Markers(x)
  {
    SealedIndex(q, x);
    CountFirst(x);
    CountFirst(q + x);
    var i := IndexOf(x, MARKER);
    if i != -1 {
      BehindPrefix(q, x, i, i + |MARKER|);
    }
  }

  lemma {:induction false} CountFirst(s: string)
    ensures Markers(s) == if IndexOf(s, MARKER) == -1 then 0 else 1 + Markers(s[IndexOf(s, MARKER) + |MARKER|..])
  {
  }

  lemma {:induction false} BehindPrefix(q: string, x: string, i: nat, j: nat)
    requires i <= j <= |x|
    ensures (q + x)[..|q| + i] == q + x[..i] && (q + x)[|q| + j..] == x[j..]
  {
  }

  lemma {:induction false} ExpandSealed(q: string, x: string, n: nat)
    requires Sealed(q)
    ensures ExpandNumber(q + x, n) == q + ExpandNumber(x, n)
  {
    PieceOfSealed(q, x);
    if FirstPiece(x).Some? {
      var p := FirstPiece(x).value;
      Regroup(q, p.before, Sprintf(p.digits, n), ExpandNumber(p.after, n));
    }
  }

  lemma {:induction false} Regroup(a: string, b: string, c: string, d: string)
    ensures (a + b) + c + d == a + (b + c + d)
  {
  }

  /** Expanding the first marker leaves the full expansion unchanged and one marker fewer. */
  lemma {:induction false} ExpandFirst(s: string, n: nat)
    requires FirstPiece(s).Some?
    ensures var p := FirstPiece(s).value;
            var t := p.before + Sprintf(p.digits, n) + p.after;
            ExpandNumber(t, n) == ExpandNumber(s, n) && Markers(t) == Markers(s) - 1
  {
    var p := FirstPiece(s).value;
    var q := p.before + Sprintf(p.digits, n);
    SprintfIsInert(p.digits, n);
    ReplacedIsSealed(s, IndexOf(s, MARKER), Sprintf(p.digits, n));
    FirstPieceShrinks(s);
    ExpandSealed(q, p.after, n);
    MarkersSealed(q, p.after);
    MarkersOfPiece(s);
  }

  lemma {:induction false} MarkersOfPiece(s: string)
    requires FirstPiece(s).Some?
    ensures Markers(s) == 1 + Markers(FirstPiece(s).value.after)
  {
    var p := FirstPiece(s).value;
    var afterMarker := s[IndexOf(s, MARKER) + |MARKER|..];
    FormatParts(afterMarker);
    FormatIsSealed(p.digits);
    MarkersSealed(p.digits + "d", p.after);
    assert afterMarker == p.digits + "d" + p.after;
  }

  lemma {:induction false} FormatParts(afterMarker: string)
    requires IndexOf(afterMarker, "d") != -1
    ensures var d := IndexOf(afterMarker, "d"); afterMarker == afterMarker[..d] + "d" + afterMarker[d + 1..]
    ensures var d := IndexOf(afterMarker, "d"); afterMarker[..d + 1] == afterMarker[..d] + "d"
  {
    var d := IndexOf(afterMarker, "d");
    IndexOfIsFirst(afterMarker, "d");
    assert afterMarker[d..d + 1] == "d";
  }

  lemma {:induction false} FormatIsSealed(digits: string)
    requires AllDigits(digits)
    ensures Sealed(digits + "d")
  {
    var q := digits + "d";
    forall k | 0 <= k < |q| ensures Mismatch(q, k) {
      assert q[k + 0] != MARKER[0];
    }
  }

  /** Expands `%(program_name)s` and every well-formed `%(process_num)Nd`. */
  method ExpandTemplate(tmpl: string, programName: string, processNum: nat) returns (s: string)
    ensures s == ExpandNumber(ReplaceAll(tmpl, PROGRAM, programName), processNum)
  {
    s := ReplaceAll(tmpl, PROGRAM, programName);
    while true
      invariant ExpandNumber(s, processNum) == ExpandNumber(ReplaceAll(tmpl, PROGRAM, programName), processNum)
      decreases Markers(s)
    {
      var start := IndexOf(s, MARKER);
      if start < 0 {
        break;
      }
      var afterMarker := s[start + |MARKER|..];
      var dIdx := IndexOf(afterMarker, "d");
      if dIdx < 0 {
        break;
      }
      var fmtPart := afterMarker[..dIdx + 1];
      if !IsValidIntFormat(fmtPart) {
        break;
      }
      ExpandFirst(s, processNum);
      assert s[start + |MARKER| + dIdx + 1..] == afterMarker[dIdx + 1..];
      assert fmtPart[..dIdx] == afterMarker[..dIdx];
      s := s[..start] + Sprintf(fmtPart[..dIdx], processNum) + s[start + |MARKER| + dIdx + 1..];
    }
  }

  // ---------- distinct names ----------

  lemma {:induction false} ExpandGrows(s: string, n: nat, m: nat)
    requires n <= m
    ensures |ExpandNumber(s, n)| <= |ExpandNumber(s, m)|
    decreases |s|
  {
    if FirstPiece(s).Some? {
      FirstPieceShrinks(s);
      var p := FirstPiece(s).value;
      SprintfGrows(p.digits, n, m);
      ExpandGrows(p.after, n, m);
    }
  }

  /** Different numbers give different names as soon as one marker is expanded, however many follow. */
  lemma {:induction false} ExpandDistinct(s: string, n: nat, m: nat)
    requires n < m && FirstPiece(s).Some?
    ensures ExpandNumber(s, n) != ExpandNumber(s, m)
  {
    FirstPieceShrinks(s);
    var p := FirstPiece(s).value;
    var a, b := Sprintf(p.digits, n), Sprintf(p.digits, m);
    SprintfGrows(p.digits, n, m);
    ExpandGrows(p.after, n, m);
    SprintfValue(p.digits, n);
    SprintfValue(p.digits, m);
    if |a| == |b| {
      DifferentMiddle(p.before, a, b, ExpandNumber(p.after, n), ExpandNumber(p.after, m));
    }
  }

  lemma {:induction false} DifferentMiddle(before: string, a: string, b: string, x: string, y: string)
    requires |a| == |b| && a != b
    ensures before + a + x != before + b + y
  {
    var i :| 0 <= i < |a| && a[i] != b[i];
    assert (before + a + x)[|before| + i] != (before + b + y)[|before| + i];
  }

  datatype ProgramConfig = ProgramConfig(
    name: string, processName: string, command: string, directory: string,
    stdoutLogFile: string, stderrLogFile: string, stdinFile: string,
    environment: map<string, string>, numProcs: int, dependsOn: seq<string>, restartCodes: seq<int>)

  ghost function Expanded(tmpl: string, programName: string, n: nat): string {
    ExpandNumber(ReplaceAll(tmpl, PROGRAM, programName), n)
  }

  /** The n-th instance of a program: its texts expanded, everything else copied. */
  ghost function Instance(cfg: ProgramConfig, n: nat): ProgramConfig {
    cfg.(name := Expanded(cfg.processName, cfg.name, n),
         command := Expanded(cfg.command, cfg.name, n),
         directory := Expanded(cfg.directory, cfg.name, n),
         stdoutLogFile := Expanded(cfg.stdoutLogFile, cfg.name, n),
         stderrLogFile := Expanded(cfg.stderrLogFile, cfg.name, n),
         stdinFile := Expanded(cfg.stdinFile, cfg.name, n),
         environment := map k | k in cfg.environment :: Expanded(cfg.environment[k], cfg.name, n),
         numProcs := 1)
  }

  /** Each field of an instance comes from the same field of the program, the name from the name template. */
  lemma InstanceFields(cfg: ProgramConfig, n: nat)
    ensures var c := Instance(cfg, n);
            && c.name == Expanded(cfg.processName, cfg.name, n) && c.processName == cfg.processName
            && c.command == Expanded(cfg.command, cfg.name, n) && c.directory == Expanded(cfg.directory, cfg.name, n)
            && c.stdoutLogFile == Expanded(cfg.stdoutLogFile, cfg.name, n)
            && c.stderrLogFile == Expanded(cfg.stderrLogFile, cfg.name, n)
            && c.stdinFile == Expanded(cfg.stdinFile, cfg.name, n)
            && c.environment.Keys == cfg.environment.Keys
            && (forall k :: k in cfg.environment ==> c.environment[k] == Expanded(cfg.environment[k], cfg.name, n))
            && c.numProcs == 1 && c.dependsOn == cfg.dependsOn && c.restartCodes == cfg.restartCodes
  {
  }

  ghost predicate Instances(cfg: ProgramConfig, r: seq<ProgramConfig>) {
    forall i :: 0 <= i < |r| ==> r[i] == Instance(cfg, i + 1)
  }

  ghost predicate NamesDistinct(r: seq<ProgramConfig>) {
    forall i, j :: 0 <= i < j < |r| ==> r[i].name != r[j].name
  }

  method ExpandEnvironment(env: map<string, string>, programName: string, n: nat) returns (r: map<string, string>)
    ensures r == map k | k in env :: Expanded(env[k], programName, n)
  {
    r := env;
    var todo := env.Keys;
    while todo != {}
      invariant todo <= env.Keys && r.Keys == env.Keys
      invariant forall k :: k in env ==> r[k] == if k in todo then env[k] else Expanded(env[k], programName, n)
    {
      var k :| k in todo;
      var v := ExpandTemplate(env[k], programName, n);
      r := r[k := v];
      todo := todo - {k};
    }
  }

  /** One configuration per process; their names differ exactly when the name template holds a usable marker. */
  method ExpandProgramConfig(cfg: ProgramConfig) returns (r: seq<ProgramConfig>)
    ensures cfg.numProcs <= 1 ==> r == [cfg.(numProcs := 1)]
    ensures cfg.numProcs > 1 ==> |r| == cfg.numProcs && Instances(cfg, r)
    ensures cfg.numProcs > 1 ==> forall i :: 0 <= i < |r| ==> r[i].name == Expanded(cfg.processName, cfg.name, i + 1)
    ensures NamesDistinct(r) <==>
            cfg.numProcs <= 1 || FirstPiece(ReplaceAll(cfg.processName, PROGRAM, cfg.name)).Some?
  {
    if cfg.numProcs <= 1 {
      return [cfg.(numProcs := 1)];
    }
    r := [];
    for i := 0 to cfg.numProcs
      invariant |r| == i && Instances(cfg, r)
    {
      var copy := ExpandInstance(cfg, i + 1);
      r := r + [copy];
    }
    NamesDistinctIff(cfg, r);
  }

  method ExpandInstance(cfg: ProgramConfig, n: nat) returns (copy: ProgramConfig)
    ensures copy == Instance(cfg, n)
  {
    var name := ExpandTemplate(cfg.processName, cfg.name, n);
    var command := ExpandTemplate(cfg.command, cfg.name, n);
    var directory := ExpandTemplate(cfg.directory, cfg.name, n);
    var out := ExpandTemplate(cfg.stdoutLogFile, cfg.name, n);
    var err := ExpandTemplate(cfg.stderrLogFile, cfg.name, n);
    var stdin := ExpandTemplate(cfg.stdinFile, cfg.name, n);
    var env := ExpandEnvironment(cfg.environment, cfg.name, n);
    copy := cfg.(name := name, command := command, directory := directory, stdoutLogFile := out,
                 stderrLogFile := err, stdinFile := stdin, environment := env, numProcs := 1);
  }

  lemma {:induction false} NamesDistinctIff(cfg: ProgramConfig, r: seq<ProgramConfig>)
    requires |r| > 1 && Instances(cfg, r)
    ensures NamesDistinct(r) <==> FirstPiece(ReplaceAll(cfg.processName, PROGRAM, cfg.name)).Some?
  {
    var s := ReplaceAll(cfg.processName, PROGRAM, cfg.name);
    if FirstPiece(s).Some? {
      forall i, j | 0 <= i < j < |r| ensures r[i].name != r[j].name {
        ExpandDistinct(s, i + 1, j + 1);
      }
    } else {
      assert r[0].name == s == r[1].name;
    }
  }
}
