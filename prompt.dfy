/** Composition of the message list sent to the generation provider: a persona, a mode
    line and a mode-specific instruction block form one system message, which is put in
    front of a copy of the caller's conversation history. */
module Prompt {
  import opened Wrappers
  import opened Strings

  /** A message as sent to the provider: only a role and a content. */
  datatype Message = Message(role: string, content: string)

  /** A history entry as the caller sent it: a role, a content, and whatever other fields
      the entry happened to carry (they are not forwarded). */
  datatype Entry = Entry(role: string, content: string, otherFields: map<string, string>)

  /** The four keys of the instruction table. */
  datatype ModeKey = Chat | Study | Learn | Motivation

  /** The fixed persona text that opens every system prompt. */
  const Persona: string :=
    "\nYou are Aurora — a calm, warm, intelligent mentor with soft humor\n"
    + "and big-sister energy. You speak in a friendly, reassuring tone.\n"
    + "You understand Pakistani student life and can reference helpful\n"
    + "cultural context when relevant. \n"

  /** The table key under which each mode is stored. */
  function KeyName(k: ModeKey): string {
    match k
    case Chat => "chat"
    case Study => "study"
    case Learn => "learn"
    case Motivation => "motivation"
  }

  /** The instruction block stored under each key. */
  function Instructions(k: ModeKey): string {
    match k
    case Chat =>
      "\nCarry a natural, warm, fun conversation.\n"
      + "Be supportive, kind, helpful, and slightly playful.\n"
    case Study =>
      "\nExplain concepts clearly with structure:\n"
      + "1. Explanation\n2. Examples\n3. Practice Questions\n"
      + "Keep it simple and helpful.\n"
    case Learn =>
      "\nGive short mini-lessons.\nUse:\n"
      + "- Definition\n- Why it matters\n- Real example\n"
      + "- 1 small action they can take today\n"
    case Motivation =>
      "\nEncourage them with sincerity.\n"
      + "Give small actionable steps.\n"
      + "Avoid generic clichés — be emotionally intelligent.\n"
  }

  /** Table lookup by the raw mode string: exactly the four keys are found; the lookup is
      case-sensitive. */
  function LookupMode(mode: string): (r: Option<ModeKey>)
    ensures r.Some? ==> KeyName(r.value) == mode
    ensures forall k: ModeKey :: mode == KeyName(k) ==> r == Some(k)
  {
    if mode == "chat" then Some(Chat)
    else if mode == "study" then Some(Study)
    else if mode == "learn" then Some(Learn)
    else if mode == "motivation" then Some(Motivation)
    else None
  }

  /** `modeInstructions[mode] || modeInstructions.chat`: every stored block is non-empty,
      so the default applies exactly when the key is absent. */
  function InstructionsFor(mode: string): (r: string)
    ensures forall k: ModeKey :: mode == KeyName(k) ==> r == Instructions(k)
    ensures (forall k: ModeKey :: mode != KeyName(k)) ==> r == Instructions(Chat)
  {
    match LookupMode(mode)
    case Some(k) => Instructions(k)
    case None => Instructions(Chat)
  }

  /** The label that opens the mode line. */
  const ModeLabel: string := "Mode: "

  /** The text between the upper-cased mode and the instruction block. */
  const InstructionsHeader: string := "\n\nInstructions:\n"

  /** The system prompt: persona, a `Mode:` line with the RAW mode upper-cased, and the
      instruction block selected by the table lookup. It holds all three pieces. */
  function SystemPrompt(mode: string): (r: string)
    ensures Contains(r, Persona)
    ensures Contains(r, ModeLabel + ToUpper(mode))
    ensures Contains(r, InstructionsFor(mode))
  {
    PromptPieces("\n", Persona, "\n\n", ModeLabel, ToUpper(mode), InstructionsHeader,
                 InstructionsFor(mode), "\n");
    "\n" + Persona + "\n\n" + ModeLabel + ToUpper(mode) + InstructionsHeader + InstructionsFor(mode) + "\n"
  }

  /** In a concatenation shaped like the system prompt, the persona piece, the mode line
      and the instruction piece each occur. */
  lemma PromptPieces(a: string, persona: string, b: string, lbl: string, upper: string,
                     header: string, instructions: string, e: string)
    ensures var s := a + persona + b + lbl + upper + header + instructions + e;
      Contains(s, persona) && Contains(s, lbl + upper) && Contains(s, instructions)
  {
    var s := a + persona + b + lbl + upper + header + instructions + e;
    assert s == a + persona + (b + lbl + upper + header + instructions + e);
    ContainsMiddle(a, persona, b + lbl + upper + header + instructions + e);
    assert s == (a + persona + b) + (lbl + upper) + (header + instructions + e);
    ContainsMiddle(a + persona + b, lbl + upper, header + instructions + e);
    assert s == (a + persona + b + lbl + upper + header) + instructions + e;
    ContainsMiddle(a + persona + b + lbl + upper + header, instructions, e);
  }

  /** The upper-case names of the four table keys. */
  lemma KnownModeUpper(k: ModeKey)
    ensures ToUpper(KeyName(k)) ==
      match k
      case Chat => "CHAT"
      case Study => "STUDY"
      case Learn => "LEARN"
      case Motivation => "MOTIVATION"
  {
  }

  /** Two modes that select the same instructions give the same system prompt exactly when
      their upper-cased names agree: the `Mode:` line tells them apart. */
  lemma SamePromptIff(m1: string, m2: string)
    requires InstructionsFor(m1) == InstructionsFor(m2)
    ensures SystemPrompt(m1) == SystemPrompt(m2) <==> ToUpper(m1) == ToUpper(m2)
  {
    MiddleDetermined("\n" + Persona + "\n\n" + ModeLabel, ToUpper(m1), ToUpper(m2),
                     InstructionsHeader, InstructionsFor(m1), "\n");
  }

  /** With everything around it fixed, the middle piece of a concatenation is determined
      by the whole. */
  lemma MiddleDetermined(pre: string, u1: string, u2: string, h: string, i: string, e: string)
    ensures pre + u1 + h + i + e == pre + u2 + h + i + e <==> u1 == u2
  {
    var s1, s2 := pre + u1 + h + i + e, pre + u2 + h + i + e;
    if s1 == s2 {
      assert |u1| == |u2|;
      assert s1[|pre|..|pre| + |u1|] == u1;
      assert s2[|pre|..|pre| + |u2|] == u2;
    }
  }

  /** A mode outside the table gets chat's instructions, yet its prompt equals chat's only
      when it upper-cases to "CHAT". */
  lemma UnknownModePrompt(mode: string)
    requires LookupMode(mode) == None
    ensures InstructionsFor(mode) == Instructions(Chat)
    ensures SystemPrompt(mode) == SystemPrompt("chat") <==> ToUpper(mode) == "CHAT"
  {
    SamePromptIff(mode, "chat");
  }

  /** Two concrete instances: "Chat" is not a table key but produces chat's whole prompt,
      while "banana" gets chat's instructions under a different `Mode:` line. */
  lemma UnknownModeExamples()
    ensures LookupMode("Chat") == None && SystemPrompt("Chat") == SystemPrompt("chat")
    ensures LookupMode("banana") == None
    ensures InstructionsFor("banana") == InstructionsFor("chat")
    ensures SystemPrompt("banana") != SystemPrompt("chat")
  {
  }

  /** `messages.map((m) => ({ role: m.role, content: m.content }))`. */
  function CopyHistory(history: seq<Entry>): (r: seq<Message>)
    ensures |r| == |history|
    ensures forall i :: 0 <= i < |history| ==>
      r[i].role == history[i].role && r[i].content == history[i].content
  {
    if history == [] then []
    else [Message(history[0].role, history[0].content)] + CopyHistory(history[1..])
  }

  /** The list sent to the provider: the system message, then the copied history. */
  function Compose(mode: string, history: seq<Entry>): (r: seq<Message>)
    ensures |r| == |history| + 1
    ensures r[0] == Message("system", SystemPrompt(mode))
    ensures forall i :: 0 <= i < |history| ==>
      r[i + 1].role == history[i].role && r[i + 1].content == history[i].content
  {
    var system := Message("system", SystemPrompt(mode));
    var copied := CopyHistory(history);
    assert forall i :: 0 <= i < |copied| ==> ([system] + copied)[i + 1] == copied[i];
    [system] + copied
  }

  /** Copying is a projection: histories that agree on roles and contents compose to the
      same list, whatever other fields their entries carry. */
  lemma ComposeIgnoresOtherFields(mode: string, h1: seq<Entry>, h2: seq<Entry>)
    requires |h1| == |h2|
    requires forall i :: 0 <= i < |h1| ==> h1[i].role == h2[i].role && h1[i].content == h2[i].content
    ensures Compose(mode, h1) == Compose(mode, h2)
  {
  }

  /** The first composed message is the system message, and it names the raw mode
      upper-cased after the `Mode:` label. */
  lemma ComposeLeadsWithMode(mode: string, history: seq<Entry>)
    ensures Compose(mode, history)[0].role == "system"
    ensures Contains(Compose(mode, history)[0].content, ModeLabel + ToUpper(mode))
  {
  }
}
