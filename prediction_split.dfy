/**
 * The three-part split of a prediction that the Telegram bot sends in
 * `sendPredictionGradually` (main.go): escaped newlines are normalised, the
 * text is cut on the `***` marker, else into paragraphs, else the paragraphs
 * are regrouped into three contiguous groups, and any slot still empty gets a
 * fixed placeholder.
 */
module PredictionSplit {
  import opened Basics
  import opened GoStrings

  /** The explicit delimiter between the three parts. */
  const Marker := "\n\n***\n\n"
  /** A blank line between paragraphs. */
  const ParagraphBreak := "\n\n"
  /** A newline escaped as backslash and `n`, as language models sometimes return it. */
  const EscapedNewline := "\\n"
  const EscapedBlankLine := "\\n\\n"

  /**
   * The fixed text for slot `i` when the prediction leaves it empty. The
   * first word is a literal of its own so that the verifier sees its first
   * letter without unfolding the whole sentence.
   */
  function Placeholder(i: nat): string
    requires i < 3
  {
    if i == 0 then "Туман" + " скрывает начало твоего пути, но звезды шепчут о переменах..."
    else if i == 1 then "Твой" + " путь пока неясен, но надежда сияет впереди..."
    else "Будущее" + " таит загадки, но завершение цикла близко..."
  }

  function Placeholders(): seq<string> {
    [Placeholder(0), Placeholder(1), Placeholder(2)]
  }

  /** Literal `\n\n` is replaced first, then every remaining literal `\n`. */
  function Normalize(text: string): string {
    ReplaceAll(ReplaceAll(text, EscapedBlankLine, "\n\n"), EscapedNewline, "\n")
  }

  /** Every piece trimmed, blank pieces dropped, order kept. */
  function KeepNonBlank(pieces: seq<string>): (kept: seq<string>)
    ensures |kept| <= |pieces|
    ensures forall k :: 0 <= k < |kept| ==> kept[k] != "" && Trimmed(kept[k])
  {
    if pieces == [] then []
    else
      var rest := KeepNonBlank(pieces[..|pieces| - 1]);
      var trimmed := TrimSpace(pieces[|pieces| - 1]);
      if trimmed == "" then rest else rest + [trimmed]
  }

  /**
   * The three slots before placeholders are filled: with n >= 3 paragraphs,
   * groups of n/3, n/3 and the rest; with fewer, one paragraph per leading slot.
   */
  function Groups(paragraphs: seq<string>): (slots: seq<string>)
    requires |paragraphs| > 0
    ensures |slots| == 3
  {
    var n := |paragraphs|;
    if n == 1 then [paragraphs[0], "", ""]
    else if n == 2 then [paragraphs[0], paragraphs[1], ""]
    else
      var third := n / 3;
      [Join(paragraphs[..third], ParagraphBreak),
       Join(paragraphs[third..2 * third], ParagraphBreak),
       Join(paragraphs[2 * third..], ParagraphBreak)]
  }

  /** Each empty slot replaced by the placeholder for its own index. */
  function FillEmpty(slots: seq<string>): (filled: seq<string>)
    requires |slots| == 3
    ensures |filled| == 3
  {
    seq(3, i requires 0 <= i < 3 => if slots[i] == "" then Placeholder(i) else slots[i])
  }

  /** The fallback when neither the marker nor the blank lines give three parts. */
  function Regroup(paragraphs: seq<string>): (slots: seq<string>)
    ensures |slots| == 3
  {
    if |paragraphs| == 0 then Placeholders() else FillEmpty(Groups(paragraphs))
  }

  /** The three segments of a prediction. */
  function Segments(prediction: string): seq<string> {
    var text := Normalize(prediction);
    var byMarker := KeepNonBlank(Split(text, Marker));
    if |byMarker| == 3 then byMarker
    else
      var paragraphs := KeepNonBlank(Split(text, ParagraphBreak));
      if |paragraphs| == 3 then paragraphs else Regroup(paragraphs)
  }

  lemma PlaceholdersAreTrimmed(i: nat)
    requires i < 3
    ensures Placeholder(i) != "" && Trimmed(Placeholder(i))
  {
    var p := Placeholder(i);
    if i == 0 {
      assert p[0] == 'Т' && p[|p| - 1] == '.';
    } else if i == 1 {
      assert p[0] == 'Т' && p[|p| - 1] == '.';
    } else {
      assert p[0] == 'Б' && p[|p| - 1] == '.';
    }
  }

  /** Regrouping at least one non-blank trimmed paragraph fills every slot with a non-empty trimmed text. */
  lemma RegroupTrimmed(paragraphs: seq<string>)
    requires forall k :: 0 <= k < |paragraphs| ==> paragraphs[k] != "" && Trimmed(paragraphs[k])
    ensures forall i :: 0 <= i < 3 ==> Regroup(paragraphs)[i] != "" && Trimmed(Regroup(paragraphs)[i])
  {
    PlaceholdersAreTrimmed(0);
    PlaceholdersAreTrimmed(1);
    PlaceholdersAreTrimmed(2);
    var n := |paragraphs|;
    if n >= 3 {
      var third := n / 3;
      JoinTrimmed(paragraphs[..third], ParagraphBreak);
      JoinTrimmed(paragraphs[third..2 * third], ParagraphBreak);
      JoinTrimmed(paragraphs[2 * third..], ParagraphBreak);
    }
  }

  /** For every input the split yields exactly three segments, each non-empty and already trimmed. */
  lemma SegmentsAreThreeTrimmed(prediction: string)
    ensures |Segments(prediction)| == 3
    ensures forall i :: 0 <= i < 3 ==>
      Segments(prediction)[i] != "" && TrimSpace(Segments(prediction)[i]) == Segments(prediction)[i]
  {
    var text := Normalize(prediction);
    var byMarker := KeepNonBlank(Split(text, Marker));
    if |byMarker| != 3 {
      var paragraphs := KeepNonBlank(Split(text, ParagraphBreak));
      if |paragraphs| != 3 {
        RegroupTrimmed(paragraphs);
      }
    }
  }

  lemma ThirdBounds(n: nat)
    requires n >= 3
    ensures 1 <= n / 3 && 2 * (n / 3) <= n && n / 3 <= n - 2 * (n / 3) <= n / 3 + 2
  {
  }

  /**
   * With n >= 3 paragraphs the slots are the joins of three contiguous runs
   * cut at n/3 and 2(n/3): the first two hold n/3 paragraphs each, at least
   * one, and the last holds the rest, at least as many and at most two more.
   */
  lemma GroupSizes(paragraphs: seq<string>)
    requires |paragraphs| >= 3
    ensures var n, third := |paragraphs|, |paragraphs| / 3;
            && var runs := [paragraphs[..third], paragraphs[third..2 * third], paragraphs[2 * third..]];
            && |runs[0]| == |runs[1]| == third >= 1
            && third <= |runs[2]| <= third + 2
            && runs[0] + runs[1] + runs[2] == paragraphs
            && forall i :: 0 <= i < 3 ==> Groups(paragraphs)[i] == Join(runs[i], ParagraphBreak)
  {
    var n, third := |paragraphs|, |paragraphs| / 3;
    ThirdBounds(n);
    assert paragraphs[..third] + paragraphs[third..2 * third] + paragraphs[2 * third..] == paragraphs;
  }

  /** Three groups of non-blank trimmed paragraphs are non-empty, so no placeholder is used. */
  lemma RegroupUsesNoPlaceholder(paragraphs: seq<string>)
    requires |paragraphs| >= 3
    requires forall k :: 0 <= k < |paragraphs| ==> paragraphs[k] != "" && Trimmed(paragraphs[k])
    ensures Regroup(paragraphs) == Groups(paragraphs)
  {
    var third := |paragraphs| / 3;
    ThirdBounds(|paragraphs|);
    var groups := Groups(paragraphs);
    JoinTrimmed(paragraphs[..third], ParagraphBreak);
    JoinTrimmed(paragraphs[third..2 * third], ParagraphBreak);
    JoinTrimmed(paragraphs[2 * third..], ParagraphBreak);
    assert groups[0] != "" && groups[1] != "" && groups[2] != "";
    assert FillEmpty(groups) == groups;
  }

  lemma JoinThree(a: string, b: string, c: string, sep: string)
    ensures Join([a, b, c], sep) == a + sep + b + sep + c
  {
    assert [a, b, c][1..] == [b, c];
    assert [b, c][1..] == [c];
    assert Join([c], sep) == c;
    assert Join([b, c], sep) == b + sep + c;
    assert Join([a, b, c], sep) == a + sep + (b + sep + c);
  }

  /** Cutting a list in three contiguous non-empty runs and joining each run, then the three, joins the whole list. */
  lemma JoinInThree(items: seq<string>, a: nat, b: nat, sep: string)
    requires 0 < a < b < |items|
    ensures Join([Join(items[..a], sep), Join(items[a..b], sep), Join(items[b..], sep)], sep) == Join(items, sep)
  {
    var first, second, last := items[..a], items[a..b], items[b..];
    var tail := items[a..];
    assert second + last == tail;
    assert first + tail == items;
    var j1, j2, j3 := Join(first, sep), Join(second, sep), Join(last, sep);
    JoinThree(j1, j2, j3, sep);
    JoinAppend(second, last, sep);
    JoinAppend(first, tail, sep);
    assert Join(items, sep) == j1 + sep + (j2 + sep + j3);
  }

  /** Joining the three groups with a blank line gives back all paragraphs in order. */
  lemma GroupsJoinBack(paragraphs: seq<string>)
    requires |paragraphs| >= 3
    ensures Join(Groups(paragraphs), ParagraphBreak) == Join(paragraphs, ParagraphBreak)
  {
    var third := |paragraphs| / 3;
    ThirdBounds(|paragraphs|);
    JoinInThree(paragraphs, third, 2 * third, ParagraphBreak);
  }

  /**
   * With n >= 3 non-blank paragraphs no placeholder is used, and joining the
   * three slots with a blank line gives back all paragraphs in order.
   */
  lemma RegroupKeepsParagraphs(paragraphs: seq<string>)
    requires |paragraphs| >= 3
    requires forall k :: 0 <= k < |paragraphs| ==> paragraphs[k] != "" && Trimmed(paragraphs[k])
    ensures Join(Regroup(paragraphs), ParagraphBreak) == Join(paragraphs, ParagraphBreak)
  {
    RegroupUsesNoPlaceholder(paragraphs);
    GroupsJoinBack(paragraphs);
  }

  /** With one or two paragraphs, they take the leading slots and each later slot gets its own placeholder. */
  lemma FewParagraphsTakeLeadingSlots(paragraphs: seq<string>)
    requires 1 <= |paragraphs| <= 2
    requires forall k :: 0 <= k < |paragraphs| ==> paragraphs[k] != ""
    ensures forall i :: 0 <= i < 3 ==>
      Regroup(paragraphs)[i] == if i < |paragraphs| then paragraphs[i] else Placeholder(i)
  {
  }

  /** After normalisation no escaped newline is left in the text. */
  lemma {:induction false} NormalizedHasNoEscapes(s: string)
    ensures !Contains(ReplaceAll(s, EscapedNewline, "\n"), EscapedNewline)
    decreases |s|
  {
    var r := ReplaceAll(s, EscapedNewline, "\n");
    if |s| >= 2 {
      if s[..2] == EscapedNewline {
        var rest := ReplaceAll(s[2..], EscapedNewline, "\n");
        NormalizedHasNoEscapes(s[2..]);
        assert r == "\n" + rest;
        forall j | 1 <= j ensures !OccursAt(r, EscapedNewline, j) {
          if j + 2 <= |r| {
            assert r[j..j + 2] == rest[j - 1..j + 1];
            assert !OccursAt(rest, EscapedNewline, j - 1);
          }
        }
        assert r[0] == '\n';
        assert !OccursAt(r, EscapedNewline, 0);
      } else {
        var rest := ReplaceAll(s[1..], EscapedNewline, "\n");
        NormalizedHasNoEscapes(s[1..]);
        assert r == [s[0]] + rest;
        forall j | 1 <= j ensures !OccursAt(r, EscapedNewline, j) {
          if j + 2 <= |r| {
            assert r[j..j + 2] == rest[j - 1..j + 1];
            assert !OccursAt(rest, EscapedNewline, j - 1);
          }
        }
        assert !OccursAt(r, EscapedNewline, 0);
      }
    }
  }

  lemma NormalizeRemovesEscapes(prediction: string)
    ensures !Contains(Normalize(prediction), EscapedNewline)
  {
    NormalizedHasNoEscapes(ReplaceAll(prediction, EscapedBlankLine, "\n\n"));
  }

  /** The trimmed non-blank pieces, computed by the filtering loop of the split. */
  method KeepTrimmedNonBlank(pieces: seq<string>) returns (kept: seq<string>)
    ensures kept == KeepNonBlank(pieces)
  {
    kept := [];
    for k := 0 to |pieces|
      invariant kept == KeepNonBlank(pieces[..k])
    {
      assert pieces[..k + 1][..k] == pieces[..k];
      var trimmed := TrimSpace(pieces[k]);
      if trimmed != "" {
        kept := kept + [trimmed];
      }
    }
    assert pieces[..|pieces|] == pieces;
  }

  /** Where the i-th group starts when groups of `third` paragraphs are cut from `n`. */
  ghost function Cut(n: nat, third: nat, i: nat): nat
    requires i <= 3
  {
    if i == 0 then 0
    else if i == 1 then Min(third, n)
    else if i == 2 then Min(2 * third, n)
    else n
  }

  /** The text the regrouping loop writes into slot `j`. */
  ghost function Slot(paragraphs: seq<string>, third: nat, j: nat): string
    requires j < 3
  {
    Join(paragraphs[Cut(|paragraphs|, third, j)..Cut(|paragraphs|, third, j + 1)], ParagraphBreak)
  }

  /** The slots written by a loop that stopped after `i` groups are exactly `Groups`. */
  lemma SlotsAreGroups(paragraphs: seq<string>, third: nat, i: nat)
    requires |paragraphs| > 0 && third == Max(|paragraphs| / 3, 1)
    requires i == Min(|paragraphs|, 3)
    ensures seq(3, j requires 0 <= j < 3 => if j < i then Slot(paragraphs, third, j) else "") == Groups(paragraphs)
  {
    var n := |paragraphs|;
    if n == 1 {
      assert paragraphs[0..1] == [paragraphs[0]];
    } else if n == 2 {
      assert paragraphs[0..1] == [paragraphs[0]];
      assert paragraphs[1..2] == [paragraphs[1]];
    } else {
      ThirdBounds(n);
      assert paragraphs[0..third] == paragraphs[..third];
      assert paragraphs[2 * third..n] == paragraphs[2 * third..];
    }
  }

  /** Cuts at least one paragraph into the three-slot buffer, group by group. */
  method CutIntoGroups(adjusted: array<string>, paragraphs: seq<string>)
    requires adjusted.Length == 3 && |paragraphs| > 0
    modifies adjusted
    ensures adjusted[..] == Groups(paragraphs)
  {
    var n := |paragraphs|;
    var third := n / 3;
    if third == 0 {
      third := 1;
    }
    adjusted[0], adjusted[1], adjusted[2] := "", "", "";
    var start := 0;
    var i := 0;
    while i < 3 && start < n
      invariant 0 <= i <= Min(n, 3)
      invariant start == Cut(n, third, i)
      invariant forall j :: 0 <= j < 3 ==> adjusted[j] == if j < i then Slot(paragraphs, third, j) else ""
    {
      var end := start + third;
      if i == 2 || end > n {
        end := n;
      }
      adjusted[i] := Join(paragraphs[start..end], ParagraphBreak);
      start := end;
      i := i + 1;
    }
    SlotsAreGroups(paragraphs, third, i);
  }

  /** Puts the placeholder into every slot of the buffer that is still empty. */
  method FillPlaceholders(adjusted: array<string>)
    requires adjusted.Length == 3
    modifies adjusted
    ensures adjusted[..] == FillEmpty(old(adjusted[..]))
  {
    ghost var grouped := adjusted[..];
    for k := 0 to 3
      invariant forall j :: 0 <= j < k ==> adjusted[j] == FillEmpty(grouped)[j]
      invariant forall j :: k <= j < 3 ==> adjusted[j] == grouped[j]
    {
      if adjusted[k] == "" {
        adjusted[k] := Placeholder(k);
      }
    }
  }

  /** The regrouping fallback of the split, on a three-slot buffer. */
  method RegroupIntoThree(paragraphs: seq<string>) returns (slots: seq<string>)
    ensures slots == Regroup(paragraphs)
  {
    var adjusted := new string[3];
    if |paragraphs| == 0 {
      adjusted[0], adjusted[1], adjusted[2] := Placeholder(0), Placeholder(1), Placeholder(2);
    } else {
      CutIntoGroups(adjusted, paragraphs);
      FillPlaceholders(adjusted);
    }
    slots := adjusted[..];
  }

  /** The split as the bot computes it; equal to `Segments` and hence always three trimmed non-empty parts. */
  method SplitPrediction(prediction: string) returns (parts: seq<string>)
    ensures parts == Segments(prediction)
    ensures |parts| == 3
    ensures forall i :: 0 <= i < 3 ==> parts[i] != "" && TrimSpace(parts[i]) == parts[i]
  {
    var text := ReplaceAll(prediction, EscapedBlankLine, "\n\n");
    text := ReplaceAll(text, EscapedNewline, "\n");
    var pieces := Split(text, Marker);
    parts := KeepTrimmedNonBlank(pieces);
    if |parts| != 3 {
      var paragraphs := Split(text, ParagraphBreak);
      parts := KeepTrimmedNonBlank(paragraphs);
      if |parts| != 3 {
        parts := RegroupIntoThree(parts);
      }
    }
    SegmentsAreThreeTrimmed(prediction);
  }
}
