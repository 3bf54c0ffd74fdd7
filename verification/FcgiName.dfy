/** The way back from a numbered process name to its program. */
module FcgiName {
  import opened Common
  import opened ProcessTemplate

  function LastUnderscore(s: string): (r: int)
    ensures -1 <= r < |s|
    ensures r >= 0 ==> s[r] == '_'
    ensures forall k :: r < k < |s| ==> s[k] != '_'
  {
    if s == "" then -1
    else if s[|s| - 1] == '_' then |s| - 1
    else LastUnderscore(s[..|s| - 1])
  }

  /** Strips a numeric suffix, so that the siblings of a program share one socket. */
  function FcgiBaseName(name: string): string {
    var idx := LastUnderscore(name);
    if idx > 0 && AllDigits(name[idx + 1..]) then name[..idx] else name
  }

  /** The number part of the usual template: a marker with a zero-padded width. */
  function Suffix(width: string): string {
    MARKER + ("0" + width + "d")
  }

  /** The usual name template: the program name, an underscore, a zero-padded number. */
  function NumberedTemplate(width: string): string {
    PROGRAM + ("_" + Suffix(width))
  }

  ghost predicate HasMarker(s: string) {
    exists k :: OccursAt(s, MARKER, k)
  }

  // ---------- where the template's parts are found ----------

  lemma {:induction false} NotThere(s: string, sub: string, k: nat, j: nat)
    requires j < |sub| && k + j < |s| && s[k + j] != sub[j]
    ensures !OccursAt(s, sub, k)
  {
  }

  lemma {:induction false} SuffixAt(width: string, k: nat)
    requires AllDigits(width) && 0 < k < |Suffix(width)|
    ensures Suffix(width)[k] != '%'
  {
    var format := "0" + width + "d";
    if k < |MARKER| {
      assert Suffix(width)[k] == MARKER[k];
    } else {
      var j := k - |MARKER|;
      assert Suffix(width)[k] == format[j];
      assert format[j] == if j == 0 then '0' else if j <= |width| then width[j - 1] else 'd';
    }
  }

  /** The template names the program once. */
  lemma {:induction false} TemplateWithName(width: string, program: string)
    requires AllDigits(width)
    ensures ReplaceAll(NumberedTemplate(width), PROGRAM, program) == program + ("_" + Suffix(width))
  {
    var t := NumberedTemplate(width);
    var rest := "_" + Suffix(width);
    assert t[0..|PROGRAM|] == PROGRAM && t[..0] == "" && t[|PROGRAM|..] == rest;
    IndexIs(t, PROGRAM, 0);
    NoProgramLeft(width);
    IndexOfIsFirst(rest, PROGRAM);
    assert ReplaceAll(rest, PROGRAM, program) == rest;
    assert "" + program == program;
  }

  lemma {:induction false} NoProgramLeft(width: string)
    requires AllDigits(width)
    ensures forall k :: !OccursAt("_" + Suffix(width), PROGRAM, k)
  {
    var rest := "_" + Suffix(width);
    forall k ensures !OccursAt(rest, PROGRAM, k) {
      if 0 <= k < |rest| {
        if k == 1 {
          assert rest[6] == Suffix(width)[5] == MARKER[5] == 'c';
          NotThere(rest, PROGRAM, 1, 5);
        } else {
          if k > 1 {
            assert rest[k] == Suffix(width)[k - 1];
            SuffixAt(width, k - 1);
          }
          NotThere(rest, PROGRAM, k, 0);
        }
      }
    }
  }

  lemma {:induction false} MarkerTail(j: nat)
    requires 0 < j < |MARKER|
    ensures MARKER[j] != '%'
  {
  }

  /** No marker begins in the program name and ends in what follows it. */
  lemma {:induction false} NoEarlierMarker(program: string, rest: string, k: nat)
    requires |rest| > 1 && rest[0] == '_' && rest[1] == '%'
    requires k <= |program| && !OccursAt(program, MARKER, k)
    ensures !OccursAt(program + rest, MARKER, k)
  {
    var s := program + rest;
    var m := |program|;
    assert s[m] == '_' && s[m + 1] == '%';
    if k + |MARKER| <= m {
      assert s[k..k + |MARKER|] == program[k..k + |MARKER|];
    } else if k + |MARKER| == m + 1 {
      NotThere(s, MARKER, k, |MARKER| - 1);
    } else {
      MarkerTail(m + 1 - k);
      NotThere(s, MARKER, k, m + 1 - k);
    }
  }

  /** Without a marker in the program name, the template's own marker comes first. */
  lemma {:induction false} OwnMarkerFirst(program: string, width: string)
    requires !HasMarker(program)
    ensures IndexOf(program + ("_" + Suffix(width)), MARKER) == |program| + 1
  {
    var rest := "_" + Suffix(width);
    OwnMarkerThere(program, width);
    forall k | 0 <= k < |program| + 1 ensures !OccursAt(program + rest, MARKER, k) {
      assert !OccursAt(program, MARKER, k);
      NoEarlierMarker(program, rest, k);
    }
    IndexIs(program + rest, MARKER, |program| + 1);
  }

  lemma {:induction false} OwnMarkerThere(program: string, width: string)
    ensures var rest := "_" + Suffix(width); rest[0] == '_' && rest[1] == '%'
    ensures OccursAt(program + ("_" + Suffix(width)), MARKER, |program| + 1)
  {
    var rest := "_" + Suffix(width);
    var m := |program| + 1;
    assert rest[1] == MARKER[0];
    assert (program + rest)[m..] == Suffix(width);
    assert (program + rest)[m..m + |MARKER|] == Suffix(width)[..|MARKER|];
  }

  lemma {:induction false} OwnFormat(before: string, width: string)
    requires AllDigits(width)
    ensures PieceAfter(before, "0" + width + "d") == Some(Piece(before, "0" + width, ""))
  {
    var digits := "0" + width;
    var format := digits + "d";
    var d := |digits|;
    assert forall k :: 0 <= k < d ==> format[k] == digits[k] && IsDigit(digits[k]);
    assert format[d..d + 1] == "d";
    forall k | 0 <= k < d ensures !OccursAt(format, "d", k) {
      NotThere(format, "d", k, 0);
    }
    IndexIs(format, "d", d);
    assert format[..d + 1] == format && format[..d] == digits && format[d + 1..] == "";
  }

  lemma {:induction false} OwnPiece(program: string, width: string)
    requires AllDigits(width) && !HasMarker(program)
    ensures FirstPiece(program + ("_" + Suffix(width))) == Some(Piece(program + "_", "0" + width, ""))
  {
    var s := program + ("_" + Suffix(width));
    OwnMarkerFirst(program, width);
    var start := |program| + 1;
    assert s[..start] == program + "_";
    assert s[start + |MARKER|..] == "0" + width + "d";
    OwnFormat(program + "_", width);
  }

  // ---------- recovering the name ----------

  /** The base name of a numbered instance is the program name. */
  lemma {:induction false} SiblingsShareName(program: string, width: string, n: nat)
    requires program != "" && AllDigits(width) && WidthAccepted("0" + width) && !HasMarker(program)
    ensures FcgiBaseName(Expanded(NumberedTemplate(width), program, n)) == program
  {
    TemplateWithName(width, program);
    OwnPiece(program, width);
    var number := Sprintf("0" + width, n);
    PaddedShape("0" + width, n);
    EmptyExpansion(n);
    assert program + "_" + number + "" == program + "_" + number;
    UnderscoreAt(program, number);
  }

  lemma {:induction false} EmptyExpansion(n: nat)
    ensures ExpandNumber("", n) == ""
  {
  }

  lemma {:induction false} UnderscoreAt(program: string, number: string)
    requires program != "" && AllDigits(number)
    ensures FcgiBaseName(program + "_" + number) == program
  {
    var name := program + "_" + number;
    var m := |program|;
    assert name[m] == '_';
    forall k | m < k < |name| ensures name[k] != '_' {
      assert name[k] == number[k - m - 1];
    }
    assert LastUnderscore(name) == m;
    assert name[m + 1..] == number && name[..m] == program;
  }

  /** The base name is the name itself, or a prefix of it that only digits follow. */
  lemma {:induction false} BaseIsPrefix(name: string)
    ensures FcgiBaseName(name) <= name
    ensures FcgiBaseName(name) == name ||
            (|FcgiBaseName(name)| < |name| && AllDigits(name[|FcgiBaseName(name)| + 1..]))
  {
  }

  lemma {:induction false} UnexpandedNotRecovered(program: string, width: string)
    ensures FcgiBaseName(program + ("_" + Suffix(width))) != program
  {
    var name := program + ("_" + Suffix(width));
    var rest := name[|program| + 1..];
    assert rest == Suffix(width) && rest[0] == MARKER[0] == '%';
    assert !AllDigits(rest);
    BaseIsPrefix(name);
  }

  /** An expanded marker leaves a text that does not begin like one. */
  lemma {:induction false} ExpandedDiffers(s: string, n: nat)
    requires FirstPiece(s).Some?
    ensures var i := IndexOf(s, MARKER); var name := ExpandNumber(s, n);
            i < |name| && (name[i] == '%' ==> i + 1 < |name| && name[i + 1] != '(')
  {
    var p := FirstPiece(s).value;
    FirstPieceShrinks(s);
    SprintfIsInert(p.digits, n);
    var text := Sprintf(p.digits, n);
    var name := p.before + text + ExpandNumber(p.after, n);
    assert name[|p.before|] == text[0] && (|text| > 1 ==> name[|p.before| + 1] == text[1]);
  }

  lemma {:induction false} MarkerIsEarly(program: string, tail: string)
    requires HasMarker(program)
    ensures var i := IndexOf(program + tail, MARKER);
            0 <= i < |program| - 1 && program[i] == '%' && program[i + 1] == '('
  {
    var s := program + tail;
    var k :| OccursAt(program, MARKER, k);
    assert s[k..k + |MARKER|] == program[k..k + |MARKER|];
    IndexOfIsFirst(s, MARKER);
    var i := IndexOf(s, MARKER);
    assert OccursAt(s, MARKER, k) && i <= k;
    assert s[i..i + |MARKER|][0] == s[i] && s[i..i + |MARKER|][1] == s[i + 1];
  }

  /** A program name with a marker of its own is not recovered: that marker is expanded, or nothing is. */
  lemma {:induction false} MarkerSpoilsName(program: string, width: string, n: nat)
    requires AllDigits(width) && HasMarker(program)
    ensures FcgiBaseName(Expanded(NumberedTemplate(width), program, n)) != program
  {
    TemplateWithName(width, program);
    var s := program + ("_" + Suffix(width));
    if FirstPiece(s).None? {
      UnexpandedNotRecovered(program, width);
    } else {
      var name := ExpandNumber(s, n);
      ExpandedDiffers(s, n);
      MarkerIsEarly(program, "_" + Suffix(width));
      assert !(program <= name);
      BaseIsPrefix(name);
    }
  }

  /** The base name recovers the program name of every sibling exactly when it holds no marker. */
  lemma {:induction false} BaseNameRecovers(program: string, width: string)
    requires program != "" && AllDigits(width) && WidthAccepted("0" + width)
    ensures (forall n: nat :: FcgiBaseName(Expanded(NumberedTemplate(width), program, n)) == program)
            <==> !HasMarker(program)
  {
    if HasMarker(program) {
      MarkerSpoilsName(program, width, 1);
    } else {
      forall n: nat ensures FcgiBaseName(Expanded(NumberedTemplate(width), program, n)) == program {
        SiblingsShareName(program, width, n);
      }
    }
  }
}
