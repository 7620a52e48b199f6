/**
 * Picking image prompts out of a language-model reply, as both prediction
 * handlers do (pkg/server/handler.go and cmd/server/server.go): the reply is
 * cut into lines, a line whose trimmed form starts with `IMAGE_PROMPT:`
 * gives a prompt, and every other line is kept as text. The request sent
 * to the model lives here too, since both handlers send the same one.
 */
module PromptLines {
  import opened GoStrings

  import opened HttpModel

  /** The request both prediction handlers send to the language model for a client. */
  function RequestPrompt(profile: Profile): string {
    "Ты - опытный таролог и экстрасенс. "
    + "Тебе нужно дать предсказание "
    + "для человека по имени " + profile.name
    + " (родился(ась) " + profile.birthDate + "). "
    + "Вопрос: " + profile.question + " (сфера: " + profile.mode + "). "
    + "Дай подробное предсказание "
    + "(минимум 2000 символов). "
    + "В конце предсказания "
    + "сгенерируй три отдельных промпта "
    + "для генерации изображений, "
    + "каждый начни с новой строки "
    + "и префиксом 'IMAGE_PROMPT:'. "
    + "Каждый промпт должен быть "
    + "на английском языке "
    + "и содержать описание изображения "
    + "в стиле Кандинского."
  }

  const PromptPrefix := "IMAGE_PROMPT:"
  const LineBreak := "\n"

  predicate IsPromptLine(line: string) {
    HasPrefix(TrimSpace(line), PromptPrefix)
  }

  /** The prompt a prompt line carries: the trimmed line without its prefix, trimmed again. */
  function PromptOf(line: string): (prompt: string)
    ensures Trimmed(prompt)
  {
    TrimSpace(TrimPrefix(TrimSpace(line), PromptPrefix))
  }

  /** The prompts of the prompt lines, in order. */
  function PromptsOf(lines: seq<string>): seq<string> {
    if lines == [] then []
    else
      var last := lines[|lines| - 1];
      PromptsOf(lines[..|lines| - 1]) + (if IsPromptLine(last) then [PromptOf(last)] else [])
  }

  /** The other lines, untrimmed and in order. */
  function TextLinesOf(lines: seq<string>): seq<string> {
    if lines == [] then []
    else
      var last := lines[|lines| - 1];
      TextLinesOf(lines[..|lines| - 1]) + (if IsPromptLine(last) then [] else [last])
  }

  /** Routing the lines plus one more line. */
  lemma RouteSnoc(lines: seq<string>, line: string)
    ensures PromptsOf(lines + [line]) == PromptsOf(lines) + (if IsPromptLine(line) then [PromptOf(line)] else [])
    ensures TextLinesOf(lines + [line]) == TextLinesOf(lines) + (if IsPromptLine(line) then [] else [line])
  {
    assert (lines + [line])[..|lines|] == lines;
  }

  /** Every line goes to exactly one side: the counts add up and no prompt line is kept as text. */
  lemma {:induction false} RoutingPartitionsLines(lines: seq<string>)
    ensures |PromptsOf(lines)| + |TextLinesOf(lines)| == |lines|
    ensures forall k :: 0 <= k < |TextLinesOf(lines)| ==> !IsPromptLine(TextLinesOf(lines)[k])
  {
    if lines != [] {
      var init, last := lines[..|lines| - 1], lines[|lines| - 1];
      RoutingPartitionsLines(init);
      assert init + [last] == lines;
      RouteSnoc(init, last);
    }
  }

  /** Every prompt is trimmed. */
  lemma {:induction false} PromptsAreTrimmed(lines: seq<string>)
    ensures forall k :: 0 <= k < |PromptsOf(lines)| ==> Trimmed(PromptsOf(lines)[k])
  {
    if lines != [] {
      var init, last := lines[..|lines| - 1], lines[|lines| - 1];
      PromptsAreTrimmed(init);
      assert init + [last] == lines;
      RouteSnoc(init, last);
    }
  }

  /** Routing keeps order: the prompts of a concatenation are the prompts of each part, in turn. */
  lemma {:induction false} PromptsKeepOrder(a: seq<string>, b: seq<string>)
    ensures PromptsOf(a + b) == PromptsOf(a) + PromptsOf(b)
    decreases |b|
  {
    if b == [] {
      assert a + b == a;
    } else {
      var init, last := b[..|b| - 1], b[|b| - 1];
      assert a + b == (a + init) + [last];
      assert b == init + [last];
      PromptsKeepOrder(a, init);
      RouteSnoc(a + init, last);
      RouteSnoc(init, last);
    }
  }

  /** Routing keeps order: the text lines of a concatenation are the text lines of each part, in turn. */
  lemma {:induction false} TextLinesKeepOrder(a: seq<string>, b: seq<string>)
    ensures TextLinesOf(a + b) == TextLinesOf(a) + TextLinesOf(b)
    decreases |b|
  {
    if b == [] {
      assert a + b == a;
    } else {
      var init, last := b[..|b| - 1], b[|b| - 1];
      assert a + b == (a + init) + [last];
      assert b == init + [last];
      TextLinesKeepOrder(a, init);
      RouteSnoc(a + init, last);
      RouteSnoc(init, last);
    }
  }

  /** Without prompt lines no prompt is taken. */
  lemma {:induction false} NoPromptLinesNoPrompts(lines: seq<string>)
    requires forall k :: 0 <= k < |lines| ==> !IsPromptLine(lines[k])
    ensures PromptsOf(lines) == []
  {
    if lines != [] {
      var init, last := lines[..|lines| - 1], lines[|lines| - 1];
      assert init + [last] == lines;
      assert forall k :: 0 <= k < |init| ==> init[k] == lines[k];
      NoPromptLinesNoPrompts(init);
      RouteSnoc(init, last);
    }
  }

  /** When no prompt was taken, every line is text. */
  lemma {:induction false} NoPromptsAllText(lines: seq<string>)
    requires PromptsOf(lines) == []
    ensures TextLinesOf(lines) == lines
  {
    if lines != [] {
      var init, last := lines[..|lines| - 1], lines[|lines| - 1];
      assert init + [last] == lines;
      RouteSnoc(init, last);
      NoPromptsAllText(init);
    }
  }

  lemma TextOfReplyWithoutPrompts(response: string)
    requires forall k :: 0 <= k < |Split(response, LineBreak)| ==> !IsPromptLine(Split(response, LineBreak)[k])
    ensures Join(TextLinesOf(Split(response, LineBreak)), LineBreak) == response
  {
    NoPromptLinesNoPrompts(Split(response, LineBreak));
    NoPromptsAllText(Split(response, LineBreak));
    JoinSplit(response, LineBreak);
  }

  /** The routing loop: each line is appended to the prompts or to the text parts. */
  method RouteLines(response: string) returns (prompts: seq<string>, textParts: seq<string>)
    ensures prompts == PromptsOf(Split(response, LineBreak))
    ensures textParts == TextLinesOf(Split(response, LineBreak))
  {
    var lines := Split(response, LineBreak);
    prompts, textParts := [], [];
    for k := 0 to |lines|
      invariant prompts == PromptsOf(lines[..k])
      invariant textParts == TextLinesOf(lines[..k])
    {
      assert lines[..k + 1] == lines[..k] + [lines[k]];
      RouteSnoc(lines[..k], lines[k]);
      var trimmedLine := TrimSpace(lines[k]);
      if HasPrefix(trimmedLine, PromptPrefix) {
        prompts := prompts + [TrimSpace(TrimPrefix(trimmedLine, PromptPrefix))];
      } else {
        textParts := textParts + [lines[k]];
      }
    }
    assert lines[..|lines|] == lines;
  }

  /** At least three prompts: the first three; fewer: all of them, then the filler up to three. */
  function Padded(prompts: seq<string>, filler: string): seq<string> {
    if |prompts| >= 3 then prompts[..3] else prompts + seq(3 - |prompts|, _ => filler)
  }

  /** Padding always gives three prompts, keeps the leading ones and fills the rest. */
  lemma PaddedShape(prompts: seq<string>, filler: string)
    ensures |Padded(prompts, filler)| == 3
    ensures forall i :: 0 <= i < 3 ==>
      Padded(prompts, filler)[i] == if i < |prompts| then prompts[i] else filler
  {
  }

  /** The padding loop, then the truncation to three. */
  method PadPrompts(prompts: seq<string>, filler: string) returns (padded: seq<string>)
    ensures padded == Padded(prompts, filler)
  {
    padded := prompts;
    while |padded| < 3
      invariant |prompts| <= |padded|
      invariant padded == prompts + seq(|padded| - |prompts|, _ => filler)
      invariant |prompts| < 3 ==> |padded| <= 3
      decreases 3 - |padded|
    {
      padded := padded + [filler];
    }
    if |padded| > 3 {
      padded := padded[..3];
    }
  }
}
