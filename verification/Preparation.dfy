/**
  How a transcript is prepared for a run: the configured prompt comes first unless there is one,
  and the instruction sections are appended to it.
 */
module Preparation {
  import opened Options
  import opened Transcript
  import Compaction

  predicate IsPersona(m: Message) {
    m.role == System && !Compaction.IsSummary(m)
  }

  /** Appends `text` to the first system message that is not a summary, or inserts one in front. */
  function AddSection(history: seq<Message>, text: string, i: nat): seq<Message>
    requires i <= |history|
    decreases |history| - i
  {
    if i == |history| then [TextMessage(System, text)] + history
    else if IsPersona(history[i]) then
      var content := match history[i].content case None => "" case Some(c) => c;
      history[i := history[i].(content := Some(content + "\n\n" + text))]
    else AddSection(history, text, i + 1)
  }

  /** The configured prompt comes first unless there is a system message that is not a summary;
      the instruction sections are then appended to that message. */
  function Prepare(history: seq<Message>, prompt: Option<string>, sections: seq<string>): seq<Message>
    decreases |sections|
  {
    if sections != [] then
      AddSection(Prepare(history, prompt, sections[..|sections| - 1]), sections[|sections| - 1], 0)
    else if prompt.Some? && forall i :: 0 <= i < |history| ==> !IsPersona(history[i]) then
      [TextMessage(System, prompt.value)] + history
    else history
  }

  lemma TailIsTools(e: seq<Message>)
    requires Exchange(e)
    ensures forall j :: 1 <= j < |e| ==> e[j].role == Tool
  {
    forall j | 1 <= j < |e|
      ensures e[j].role == Tool
    {
      assert e[1..][j - 1] == e[j];
    }
  }

  lemma SystemIsNoResult(history: seq<Message>, i: nat)
    requires WellFormed(history) && i < |history| && history[i].role == System
    ensures i == 0 || i >= ExchangeLength(history[0])
  {
    hide Exchange;
    var e := history[..ExchangeLength(history[0])];
    TailIsTools(e);
    assert i < |e| ==> e[i] == history[i];
  }

  /** Rewriting the text of a system message changes no exchange. */
  lemma {:induction false} RewriteSystem(history: seq<Message>, i: nat, m: Message)
    requires WellFormed(history) && i < |history|
    requires history[i].role == System == m.role
    ensures WellFormed(history[i := m])
    decreases |history|
  {
    SystemIsNoResult(history, i);
    if i == 0 {
      assert history[i := m] == [m] + history[1..];
      PlainMessage(history[1..], m);
    } else {
      var n := ExchangeLength(history[0]);
      RewriteSystem(history[n..], i - n, m);
      ExchangeIsWellFormed(history[..n]);
      WellFormedConcat(history[..n], history[n..][i - n := m]);
      assert history[i := m] == history[..n] + history[n..][i - n := m];
    }
  }

  lemma {:induction false} AddSectionWellFormed(history: seq<Message>, text: string, i: nat)
    requires WellFormed(history) && i <= |history|
    ensures WellFormed(AddSection(history, text, i))
    decreases |history| - i
  {
    if i == |history| {
      PlainMessage(history, TextMessage(System, text));
    } else if IsPersona(history[i]) {
      var content := match history[i].content case None => "" case Some(c) => c;
      RewriteSystem(history, i, history[i].(content := Some(content + "\n\n" + text)));
    } else {
      AddSectionWellFormed(history, text, i + 1);
    }
  }

  lemma {:induction false} PrepareWellFormed(history: seq<Message>, prompt: Option<string>, sections: seq<string>)
    requires WellFormed(history)
    ensures WellFormed(Prepare(history, prompt, sections))
    decreases |sections|
  {
    if sections != [] {
      PrepareWellFormed(history, prompt, sections[..|sections| - 1]);
      AddSectionWellFormed(Prepare(history, prompt, sections[..|sections| - 1]), sections[|sections| - 1], 0);
    } else {
      PlainMessage(history, TextMessage(System, match prompt case None => "" case Some(p) => p));
    }
  }

  // ----- what a prepared transcript is

  /** Texts behind a text, each in a paragraph of its own. */
  function Paragraphs(texts: seq<string>): string {
    if texts == [] then "" else "\n\n" + texts[0] + Paragraphs(texts[1..])
  }

  lemma {:induction false} ParagraphsAppend(texts: seq<string>, text: string)
    ensures Paragraphs(texts + [text]) == Paragraphs(texts) + "\n\n" + text
  {
    if texts == [] {
      assert [text][1..] == [];
    } else {
      assert (texts + [text])[1..] == texts[1..] + [text];
      ParagraphsAppend(texts[1..], text);
    }
  }

  function TextOf(m: Message): string {
    match m.content case None => "" case Some(c) => c
  }

  /** The message with more text. */
  function Extended(m: Message, more: string): Message {
    m.(content := Some(TextOf(m) + more))
  }

  /** The first system message that is not a summary. */
  ghost predicate IsFirst(history: seq<Message>, k: nat) {
    k < |history| && IsPersona(history[k]) && forall j :: 0 <= j < k ==> !IsPersona(history[j])
  }

  ghost predicate NoPersona(history: seq<Message>) {
    forall i :: 0 <= i < |history| ==> !IsPersona(history[i])
  }

  lemma BreakIsNoPrefix(prefix: string, text: string, more: string)
    requires '\n' !in prefix && !(prefix <= text)
    ensures !(prefix <= text + ("\n\n" + more))
  {
    var all := text + ("\n\n" + more);
    if |text| < |prefix| {
      assert all[|text|] == '\n' && prefix[|text|] != '\n';
    } else {
      assert all[..|prefix|] == text[..|prefix|];
    }
  }

  /** No paragraph behind a text turns it into a summary. */
  lemma StaysPersona(m: Message, more: string)
    requires IsPersona(m)
    ensures IsPersona(Extended(m, "\n\n" + more))
  {
    assert !(Compaction.SUMMARY_PREFIX <= TextOf(m));
    BreakIsNoPrefix(Compaction.SUMMARY_PREFIX, TextOf(m), more);
  }

  lemma {:induction false} AddSectionFrom(history: seq<Message>, text: string, i: nat)
    requires i <= |history| && forall j :: 0 <= j < i ==> !IsPersona(history[j])
    ensures forall k: nat :: IsFirst(history, k) ==>
      AddSection(history, text, i) == history[k := Extended(history[k], "\n\n" + text)]
    ensures NoPersona(history) ==> AddSection(history, text, i) == [TextMessage(System, text)] + history
    decreases |history| - i
  {
    if i < |history| {
      if IsPersona(history[i]) {
        assert TextOf(history[i]) + ("\n\n" + text) == TextOf(history[i]) + "\n\n" + text;
        assert forall k: nat :: IsFirst(history, k) ==> k == i;
      } else {
        AddSectionFrom(history, text, i + 1);
      }
    }
  }

  lemma StillFirst(history: seq<Message>, k: nat, more: string)
    requires IsFirst(history, k)
    ensures IsFirst(history[k := Extended(history[k], "\n\n" + more)], k)
  {
    StaysPersona(history[k], more);
  }

  /** With a system message that is not a summary, the prompt is left out and the sections become
      paragraphs of the first such message; nothing else changes. */
  lemma {:induction false} PreparedPersona(history: seq<Message>, prompt: Option<string>, sections: seq<string>, k: nat)
    requires IsFirst(history, k)
    ensures Prepare(history, prompt, sections) ==
      if sections == [] then history else history[k := Extended(history[k], Paragraphs(sections))]
    ensures IsFirst(Prepare(history, prompt, sections), k)
    decreases |sections|
  {
    hide Extended, IsPersona, AddSection, Paragraphs;
    if sections != [] {
      var (front, last) := (sections[..|sections| - 1], sections[|sections| - 1]);
      var before := Prepare(history, prompt, front);
      PreparedPersona(history, prompt, front, k);
      AddSectionFrom(before, last, 0);
      StillFirst(before, k, last);
      assert sections == front + [last];
      ParagraphsAppend(front, last);
      OneParagraphMore(history[k], front, last);
    }
  }

  lemma OneParagraphMore(m: Message, front: seq<string>, last: string)
    ensures front == [] ==> Extended(m, "\n\n" + last) == Extended(m, Paragraphs(front + [last]))
    ensures Extended(Extended(m, Paragraphs(front)), "\n\n" + last) == Extended(m, Paragraphs(front + [last]))
  {
    ParagraphsAppend(front, last);
    var paragraphs := Paragraphs(front);
    assert TextOf(m) + paragraphs + ("\n\n" + last) == TextOf(m) + (paragraphs + "\n\n" + last);
    assert "" + "\n\n" + last == "\n\n" + last;
  }

  /** A text in front of everything that is not read as a summary. */
  predicate IsPlainText(text: string) {
    !(Compaction.SUMMARY_PREFIX <= text)
  }

  /**
    Without such a message the prompt becomes the first message, and the sections its paragraphs;
    without a prompt the first section does. A prompt or section that reads like a summary is put in
    front, and what follows is treated as if it had been there.
   */
  lemma {:induction false} PreparedExactly(history: seq<Message>, prompt: Option<string>, sections: seq<string>)
    requires NoPersona(history)
    ensures prompt == None && sections == [] ==> Prepare(history, prompt, sections) == history
    ensures prompt == None && sections != [] ==>
      Prepare(history, prompt, sections) == Prepare(history, Some(sections[0]), sections[1..])
    ensures prompt.Some? ==>
      Prepare(history, prompt, sections) == Prepare([TextMessage(System, prompt.value)] + history, None, sections)
    ensures prompt.Some? && IsPlainText(prompt.value) ==>
      Prepare(history, prompt, sections) == [TextMessage(System, prompt.value + Paragraphs(sections))] + history
    decreases |sections|
  {
    hide AddSection, Paragraphs, IsPersona;
    if prompt.Some? {
      PromptIsMessage(history, prompt.value, sections);
      if IsPlainText(prompt.value) {
        PlainPrompt(history, prompt.value, sections);
      }
    } else if sections != [] {
      FirstSectionIsPrompt(history, sections);
    }
  }

  lemma {:induction false} PromptIsMessage(history: seq<Message>, prompt: string, sections: seq<string>)
    requires NoPersona(history)
    ensures Prepare(history, Some(prompt), sections) == Prepare([TextMessage(System, prompt)] + history, None, sections)
    decreases |sections|
  {
    hide AddSection, IsPersona;
    if sections != [] {
      PromptIsMessage(history, prompt, sections[..|sections| - 1]);
    }
  }

  lemma {:induction false} FirstSectionIsPrompt(history: seq<Message>, sections: seq<string>)
    requires NoPersona(history) && sections != []
    ensures Prepare(history, None, sections) == Prepare(history, Some(sections[0]), sections[1..])
    decreases |sections|
  {
    hide AddSection, IsPersona;
    var last := |sections| - 1;
    if last == 0 {
      AddSectionFrom(history, sections[0], 0);
      assert sections[..0] == [] && sections[1..] == [];
    } else {
      FirstSectionIsPrompt(history, sections[..last]);
      assert sections[..last][1..] == sections[1..][..last - 1];
    }
  }

  lemma PlainPrompt(history: seq<Message>, prompt: string, sections: seq<string>)
    requires NoPersona(history) && IsPlainText(prompt)
    ensures Prepare(history, Some(prompt), sections)
      == [TextMessage(System, prompt + Paragraphs(sections))] + history
  {
    hide Prepare, Paragraphs;
    var all := [TextMessage(System, prompt)] + history;
    PromptIsMessage(history, prompt, sections);
    PreparedPersona(all, None, sections, 0);
    assert prompt + "" == prompt && (sections == [] ==> Paragraphs(sections) == "") by { NoParagraphs(); }
  }

  lemma NoParagraphs()
    ensures Paragraphs([]) == ""
  {
  }
}
