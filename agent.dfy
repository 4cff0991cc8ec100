/**
  The conversation graph of scripts/main.py: the reply segmentation, the agent
  node (system-prompt slot, temporal annex, one model call, reply buffer), the
  router, the tools node and the agent -> tools -> agent cycle.

  The chat model, the tool executor and the wall clock are oracles carried in an
  `Env`. The graph itself sets no bound on the cycle; `Run` and `Invoke` take a
  `fuel` argument, which stands for the runtime's recursion limit: running out of
  it is an outcome of its own, which the chat front ends treat as a raise.
*/
module Agent {
  import opened Wrappers
  import opened Text
  import opened Messages
  import opened CivilCalendar

  // ---------------------------------------------------------------------------
  // format_bot_response: cut a reply into paragraph bubbles
  // ---------------------------------------------------------------------------

  const ParagraphBreak := "\n\n"

  /** `[c.strip() for c in parts if c.strip()]` */
  function NonBlankStripped(parts: seq<string>): (r: seq<string>)
    ensures |r| <= |parts|
  {
    if parts == [] then []
    else (if IsBlank(parts[0]) then [] else [Strip(parts[0])]) + NonBlankStripped(parts[1..])
  }

  /**
    The comprehension keeps exactly the non-blank pieces, stripped: every non-blank piece
    gives a kept piece, every kept piece comes from a non-blank one, each is non-empty and
    trimmed, and nothing is kept exactly when all pieces are blank.
  */
  lemma {:induction false} NonBlankStrippedShape(parts: seq<string>)
    ensures var r := NonBlankStripped(parts);
      && (forall p :: p in parts && !IsBlank(p) ==> Strip(p) in r)
      && (forall x :: x in r ==> exists p :: p in parts && !IsBlank(p) && x == Strip(p))
      && (forall k :: 0 <= k < |r| ==> Trimmed(r[k]))
      && (r == [] <==> AllBlank(parts))
  {
    NonBlankStrippedMembers(parts);
    NonBlankStrippedTrimmed(parts);
    NonBlankStrippedEmpty(parts);
  }

  lemma {:induction false} NonBlankStrippedMembers(parts: seq<string>)
    ensures var r := NonBlankStripped(parts);
      && (forall p :: p in parts && !IsBlank(p) ==> Strip(p) in r)
      && (forall x :: x in r ==> exists p :: p in parts && !IsBlank(p) && x == Strip(p))
  {
    if parts != [] {
      var tail := parts[1..];
      NonBlankStrippedMembers(tail);
      var rest := NonBlankStripped(tail);
      var r := NonBlankStripped(parts);
      assert parts == [parts[0]] + tail;
      assert r == (if IsBlank(parts[0]) then [] else [Strip(parts[0])]) + rest;
      forall x | x in r
        ensures exists p :: p in parts && !IsBlank(p) && x == Strip(p)
      {
        if x in rest {
          var p :| p in tail && !IsBlank(p) && x == Strip(p);
          assert p in parts;
        } else {
          assert parts[0] in parts;
        }
      }
    }
  }

  lemma {:induction false} NonBlankStrippedTrimmed(parts: seq<string>)
    ensures forall k :: 0 <= k < |NonBlankStripped(parts)| ==> Trimmed(NonBlankStripped(parts)[k])
  {
    if parts != [] {
      NonBlankStrippedTrimmed(parts[1..]);
      StripTrims(parts[0]);
      var r := NonBlankStripped(parts);
      var rest := NonBlankStripped(parts[1..]);
      if !IsBlank(parts[0]) {
        assert r == [Strip(parts[0])] + rest;
        assert forall k :: 1 <= k < |r| ==> r[k] == rest[k - 1];
      }
    }
  }

  lemma {:induction false} NonBlankStrippedEmpty(parts: seq<string>)
    ensures NonBlankStripped(parts) == [] <==> AllBlank(parts)
  {
    if parts != [] {
      NonBlankStrippedEmpty(parts[1..]);
      assert parts == [parts[0]] + parts[1..];
      AllBlankCons(parts[0], parts[1..]);
    }
  }

  lemma {:induction false} NonBlankStrippedCons(head: string, tail: seq<string>)
    ensures NonBlankStripped([head] + tail)
         == (if IsBlank(head) then [] else [Strip(head)]) + NonBlankStripped(tail)
  {
    assert ([head] + tail)[1..] == tail;
  }

  /** format_bot_response: the stripped non-blank paragraphs, or the reply itself when there are none. */
  function FormatBotResponse(text: string): (r: seq<string>)
    ensures r != []
  {
    var chunks := NonBlankStripped(Split(text, ParagraphBreak));
    if chunks != [] then chunks else [text]
  }

  /**
    The bubbles of a reply: a blank reply is sent as it is, otherwise every bubble is a
    non-empty paragraph without surrounding whitespace, and a reply without a blank line
    is one bubble, the reply stripped.
  */
  lemma {:induction false} BubblesAreTrimmedParagraphs(text: string)
    ensures var r := FormatBotResponse(text);
      && (IsBlank(text) ==> r == [text])
      && (!IsBlank(text) ==>
            forall k :: 0 <= k < |r| ==> Trimmed(r[k]))
      && (!IsBlank(text) && Find(text, ParagraphBreak).None? ==> r == [Strip(text)])
  {
    var parts := Split(text, ParagraphBreak);
    BlankIffPiecesBlank(text, ParagraphBreak);
    NonBlankStrippedShape(parts);
    if Find(text, ParagraphBreak).None? {
      assert Split(text, ParagraphBreak) == [text];
      NonBlankStrippedCons(text, []);
    }
  }

  lemma {:induction false} BlankConcat(a: string, b: string)
    ensures IsBlank(a + b) <==> IsBlank(a) && IsBlank(b)
  {
    if IsBlank(a + b) {
      forall i | 0 <= i < |a| ensures IsSpace(a[i]) {
        assert a[i] == (a + b)[i];
      }
      forall i | 0 <= i < |b| ensures IsSpace(b[i]) {
        assert b[i] == (a + b)[|a| + i];
      }
    }
    if IsBlank(a) && IsBlank(b) {
      forall i | 0 <= i < |a + b| ensures IsSpace((a + b)[i]) {
        if i < |a| { assert (a + b)[i] == a[i]; } else { assert (a + b)[i] == b[i - |a|]; }
      }
    }
  }

  predicate AllBlank(parts: seq<string>) {
    forall k :: 0 <= k < |parts| ==> IsBlank(parts[k])
  }

  lemma {:induction false} AllBlankCons(head: string, tail: seq<string>)
    ensures AllBlank([head] + tail) <==> IsBlank(head) && AllBlank(tail)
  {
    var parts := [head] + tail;
    assert parts[0] == head;
    assert forall k :: 0 <= k < |tail| ==> tail[k] == parts[k + 1];
  }

  /** A text is blank exactly when every piece of its split is. */
  /** Cutting at a blank separator: the text is blank exactly when the cut-off head and the rest are. */
  lemma {:induction false} BlankAtCut(s: string, sep: string, i: nat)
    requires sep != [] && IsBlank(sep) && i + |sep| <= |s| && s[i..i + |sep|] == sep
    ensures IsBlank(s) <==> IsBlank(s[..i]) && IsBlank(s[i + |sep|..])
  {
    var head, rest := s[..i], s[i + |sep|..];
    assert s == head + (sep + rest);
    BlankConcat(head, sep + rest);
    BlankConcat(sep, rest);
  }

  lemma {:induction false} BlankIffPiecesBlank(s: string, sep: string)
    requires sep != [] && IsBlank(sep)
    ensures IsBlank(s) <==> AllBlank(Split(s, sep))
    decreases |s|
  {
    var f := Find(s, sep);
    if f.None? {
      assert Split(s, sep) == [s];
      AllBlankCons(s, []);
    } else {
      var i := f.value;
      BlankIffPiecesBlank(s[i + |sep|..], sep);
      SplitAt(s, sep, i);
      AllBlankCons(s[..i], Split(s[i + |sep|..], sep));
      BlankAtCut(s, sep, i);
    }
  }

  /** `pos[k]` is where fragment k starts in `text`; fragments do not touch or overlap. */
  predicate OccurInOrder(frags: seq<string>, text: string, pos: seq<int>) {
    && |pos| == |frags|
    && (forall k :: 0 <= k < |frags| ==>
          0 <= pos[k] && pos[k] + |frags[k]| <= |text| && text[pos[k]..pos[k] + |frags[k]|] == frags[k])
    && (forall k :: 0 <= k < |frags| - 1 ==> pos[k] + |frags[k]| < pos[k + 1])
  }

  function Shifted(pos: seq<int>, off: int): (r: seq<int>)
    ensures |r| == |pos| && forall k :: 0 <= k < |pos| ==> r[k] == pos[k] + off
  {
    seq(|pos|, k requires 0 <= k < |pos| => pos[k] + off)
  }

  /** Fragments found in a suffix of a text are found in the text, shifted by the cut. */
  lemma {:induction false} OccurInSuffix(frags: seq<string>, s: string, off: nat, pos: seq<int>)
    requires off <= |s| && OccurInOrder(frags, s[off..], pos)
    ensures OccurInOrder(frags, s, Shifted(pos, off))
  {
    var sh := Shifted(pos, off);
    forall k | 0 <= k < |frags|
      ensures 0 <= sh[k] && sh[k] + |frags[k]| <= |s| && s[sh[k]..sh[k] + |frags[k]|] == frags[k]
    {
      assert s[off..][pos[k]..pos[k] + |frags[k]|] == s[sh[k]..sh[k] + |frags[k]|];
    }
  }

  /** One more fragment in front, ending before the others start. */
  lemma {:induction false} OccurInFront(first: string, p: int, frags: seq<string>, s: string, pos: seq<int>)
    requires OccurInOrder(frags, s, pos)
    requires 0 <= p && p + |first| <= |s| && s[p..p + |first|] == first
    requires frags != [] ==> p + |first| < pos[0]
    ensures OccurInOrder([first] + frags, s, [p] + pos)
  {
    var fs, ps := [first] + frags, [p] + pos;
    forall k | 0 <= k < |fs|
      ensures 0 <= ps[k] && ps[k] + |fs[k]| <= |s| && s[ps[k]..ps[k] + |fs[k]|] == fs[k]
    {
      if k > 0 {
        assert fs[k] == frags[k - 1] && ps[k] == pos[k - 1];
      }
    }
    forall k | 0 <= k < |fs| - 1
      ensures ps[k] + |fs[k]| < ps[k + 1]
    {
      if k > 0 {
        assert fs[k] == frags[k - 1] && ps[k] == pos[k - 1] && ps[k + 1] == pos[k];
      }
    }
  }

  lemma {:induction false} OneChunkInOrder(s: string) returns (pos: seq<int>)
    requires Find(s, ParagraphBreak).None?
    ensures OccurInOrder(NonBlankStripped(Split(s, ParagraphBreak)), s, pos)
  {
    assert Split(s, ParagraphBreak) == [s];
    NonBlankStrippedCons(s, []);
    StripTrims(s);
    if IsBlank(s) {
      pos := [];
    } else {
      pos := [LeadingSpace(s)];
    }
  }

  /** The stripped text before position i is found in s where its first non-blank character is. */
  lemma {:induction false} StrippedPrefixOccurs(s: string, i: nat)
    requires i <= |s| && !IsBlank(s[..i])
    ensures var head, p := s[..i], LeadingSpace(s[..i]);
      p + |Strip(head)| <= i && s[p..p + |Strip(head)|] == Strip(head)
  {
    var head := s[..i];
    BlankBounds(head);
    var p, e := LeadingSpace(head), ContentEnd(head);
    assert Strip(head) == head[p..e];
    assert head[p..e] == s[p..e];
  }

  /** The stripped text before position i goes in front of fragments found after i. */
  lemma {:induction false} HeadChunkInFront(s: string, i: nat, frags: seq<string>, pos: seq<int>)
    requires i <= |s| && !IsBlank(s[..i])
    requires OccurInOrder(frags, s, pos)
    requires frags != [] ==> pos[0] > i
    ensures OccurInOrder([Strip(s[..i])] + frags, s, [LeadingSpace(s[..i])] + pos)
  {
    StrippedPrefixOccurs(s, i);
    OccurInFront(Strip(s[..i]), LeadingSpace(s[..i]), frags, s, pos);
  }

  /** The chunks before and after the first blank line, found in order, give those of the whole text. */
  lemma {:induction false} ChunksAfterBreak(s: string, i: nat, restPos: seq<int>) returns (pos: seq<int>)
    requires Find(s, ParagraphBreak) == Some(i)
    requires OccurInOrder(NonBlankStripped(Split(s[i + |ParagraphBreak|..], ParagraphBreak)), s[i + |ParagraphBreak|..], restPos)
    ensures OccurInOrder(NonBlankStripped(Split(s, ParagraphBreak)), s, pos)
  {
    var rest := s[i + |ParagraphBreak|..];
    var head := s[..i];
    var restChunks := NonBlankStripped(Split(rest, ParagraphBreak));
    SplitAt(s, ParagraphBreak, i);
    NonBlankStrippedCons(head, Split(rest, ParagraphBreak));
    OccurInSuffix(restChunks, s, i + |ParagraphBreak|, restPos);
    var shifted := Shifted(restPos, i + |ParagraphBreak|);
    if IsBlank(head) {
      assert NonBlankStripped(Split(s, ParagraphBreak)) == restChunks;
      pos := shifted;
    } else {
      assert restChunks != [] ==> shifted[0] >= i + |ParagraphBreak|;
      HeadChunkInFront(s, i, restChunks, shifted);
      pos := [LeadingSpace(head)] + shifted;
      assert NonBlankStripped(Split(s, ParagraphBreak)) == [Strip(head)] + restChunks;
    }
  }

  lemma {:induction false} ChunksInOrder(s: string) returns (pos: seq<int>)
    ensures OccurInOrder(NonBlankStripped(Split(s, ParagraphBreak)), s, pos)
    decreases |s|
  {
    var f := Find(s, ParagraphBreak);
    if f.None? {
      pos := OneChunkInOrder(s);
    } else {
      var restPos := ChunksInOrder(s[f.value + |ParagraphBreak|..]);
      pos := ChunksAfterBreak(s, f.value, restPos);
    }
  }

  /** The bubbles appear in the reply in the same order, each where the reply has it. */
  lemma {:induction false} FragmentsInOrder(text: string) returns (pos: seq<int>)
    ensures OccurInOrder(FormatBotResponse(text), text, pos)
  {
    BlankIffPiecesBlank(text, ParagraphBreak);
    NonBlankStrippedShape(Split(text, ParagraphBreak));
    if IsBlank(text) {
      pos := [0];
      assert text[0..|text|] == text;
    } else {
      pos := ChunksInOrder(text);
    }
  }

  // ---------------------------------------------------------------------------
  // The temporal annex of the system prompt (Argentina, GMT-3)
  // ---------------------------------------------------------------------------

  const DiasSemana: seq<string> := ["Lunes", "Martes", "Miércoles", "Jueves", "Viernes", "Sábado", "Domingo"]

  const MesesAno: seq<string> := ["Enero", "Febrero", "Marzo", "Abril", "Mayo", "Junio", "Julio",
                                  "Agosto", "Septiembre", "Octubre", "Noviembre", "Diciembre"]

  datatype Instant = Instant(date: Date, hour: int, minute: int, second: int)

  /** A wall-clock reading: a valid date and a time of day. */
  type Now = i: Instant | Valid(i.date) && 0 <= i.hour < 24 && 0 <= i.minute < 60 && 0 <= i.second < 60
    witness Instant(Date(2026, 1, 1), 0, 0, 0)

  /** `%H`, `%M`, `%S`: two digits, zero padded. */
  function TwoDigits(n: nat): (r: string)
    requires n < 100
    ensures |r| == 2 && IsDigit(r[0]) && IsDigit(r[1])
  {
    [('0' as int + n / 10) as char, ('0' as int + n % 10) as char]
  }

  function DayName(d: Date): string
    requires Valid(d)
  {
    DiasSemana[Weekday(d)]
  }

  function MonthName(d: Date): string
    requires Valid(d)
  {
    MesesAno[d.month - 1]
  }

  /** The fixed text before today's date, and after the time of day. */
  const HeaderOpening: string := "\n\n# CONTEXTO TEMPORAL ACTUAL\nHoy es: "
  const HeaderClosing: string :=
    " (Hora Argentina GMT-3).\n\n# PROYECCIÓN DE PRÓXIMOS 7 DÍAS (Usa esto para calcular fechas exactas sin equivocarte):\n"

  /** "Hoy es: <weekday> <day> de <month> de <year>, HH:MM:SS", between the fixed texts. */
  function AnnexHeader(now: Now): string {
    HeaderOpening + DayName(now.date) + " " + Decimal(now.date.day)
    + " de " + MonthName(now.date) + " de " + Decimal(now.date.year) + ", "
    + TwoDigits(now.hour) + ":" + TwoDigits(now.minute) + ":" + TwoDigits(now.second)
    + HeaderClosing
  }

  function ProjectionLine(d: Date): string
    requires Valid(d)
  {
    "- " + DayName(d) + " " + Decimal(d.day) + " de " + MonthName(d) + "\n"
  }

  const AnnexFooter := "\nTen esto en cuenta obligatoriamente para calcular fechas si el usuario dice 'mañana', 'el miércoles', 'próxima semana', etc."

  /** How many days ahead the annex projects (`range(1, 8)`). */
  const ProjectedDays: nat := 7

  /** The lines for the first k days after `today`, in date order. */
  function Projection(today: Date, k: nat): string
    requires Valid(today)
  {
    if k == 0 then [] else Projection(today, k - 1) + ProjectionLine(AddDays(today, k))
  }

  function AnnexText(now: Now): string {
    AnnexHeader(now) + Projection(now.date, ProjectedDays) + AnnexFooter
  }

  /** The system prompt the agent node installs: the persona text followed by the annex. */
  function SystemPrompt(persona: string, now: Now): string {
    persona + AnnexText(now)
  }

  /** Builds the annex as the agent node does, one projected day per iteration. */
  method TemporalAnnex(now: Now) returns (annex: string)
    ensures annex == AnnexText(now)
  {
    ghost var header := AnnexHeader(now);
    annex := AnnexHeader(now);
    for i := 1 to ProjectedDays + 1
      invariant annex == header + Projection(now.date, i - 1)
    {
      var future := AddDays(now.date, i);
      var line := ProjectionLine(future);
      ConcatAssoc(header, Projection(now.date, i - 1), line);
      annex := annex + line;
    }
    annex := annex + AnnexFooter;
  }

  /** The seven dates the annex projects: entry i is the date i + 1 days after today. */
  function ProjectedDates(today: Date): (ds: seq<Date>)
    requires Valid(today)
    ensures |ds| == ProjectedDays
    ensures forall i :: 0 <= i < ProjectedDays ==> Valid(ds[i]) && Ordinal(ds[i]) == Ordinal(today) + i + 1
  {
    seq(ProjectedDays, i requires 0 <= i < ProjectedDays => AddDays(today, i + 1))
  }

  /** The projected dates are consecutive days, so their names run round the week from tomorrow. */
  lemma {:induction false} ProjectedWeekdays(today: Date)
    requires Valid(today)
    ensures var ds := ProjectedDates(today);
      forall i :: 0 <= i < ProjectedDays ==> DayName(ds[i]) == DiasSemana[(Weekday(today) + i + 1) % 7]
  {
    var ds := ProjectedDates(today);
    forall i | 0 <= i < ProjectedDays
      ensures DayName(ds[i]) == DiasSemana[(Weekday(today) + i + 1) % 7]
    {
      WeekdayAfter(today, i + 1);
    }
  }

  function LinesFor(ds: seq<Date>): string
    requires forall i :: 0 <= i < |ds| ==> Valid(ds[i])
  {
    if ds == [] then [] else LinesFor(ds[..|ds| - 1]) + ProjectionLine(ds[|ds| - 1])
  }

  lemma {:induction false} ProjectionIsLinesFor(today: Date, k: nat)
    requires Valid(today) && k <= ProjectedDays
    ensures Projection(today, k) == LinesFor(ProjectedDates(today)[..k])
  {
    if k > 0 {
      ProjectionIsLinesFor(today, k - 1);
      var ds := ProjectedDates(today);
      assert ds[..k][..k - 1] == ds[..k - 1];
      assert ds[..k][k - 1] == ds[k - 1] == AddDays(today, k);
    }
  }

  /** The annex lists exactly the seven projected dates, one line each, in date order. */
  lemma {:induction false} AnnexListsNextSevenDays(now: Now)
    ensures AnnexText(now) == AnnexHeader(now) + LinesFor(ProjectedDates(now.date)) + AnnexFooter
  {
    ProjectionIsLinesFor(now.date, ProjectedDays);
    assert ProjectedDates(now.date)[..ProjectedDays] == ProjectedDates(now.date);
  }

  // ---------------------------------------------------------------------------
  // The agent node (razonar_estado)
  // ---------------------------------------------------------------------------

  /** The oracles the graph runs against: persona text, chat model, tool executor, clock. */
  datatype Env = Env(
    persona: string,
    llm: seq<Message> -> Option<ModelReply>,
    tools: Message -> seq<Message>,
    clock: nat -> Now)

  /** The history without its leading system prompt: the part the slot update leaves alone. */
  function Conversation(h: seq<Message>): seq<Message> {
    if h != [] && h[0].System? then h[1..] else h
  }

  /** The system-prompt slot after the update: index 0 always holds the new prompt. */
  function SystemSlot(messages: seq<Message>, prompt: string): (r: seq<Message>)
    ensures r != [] && r[0] == System(prompt)
    ensures Conversation(r) == Conversation(messages)
    ensures messages == [] ==> |r| == 1
    ensures messages != [] && messages[0].System? ==> |r| == |messages| && r[1..] == messages[1..]
    ensures messages != [] && !messages[0].System? ==> |r| == |messages| + 1 && r[1..] == messages
  {
    if messages == [] then [System(prompt)]
    else if messages[0].System? then messages[0 := System(prompt)]
    else [System(prompt)] + messages
  }

  /**
    One agent step with the given system prompt: what the node returns, merged into the
    state (None: the model call raised).
  */
  function AgentStep(s: AgentState, llm: seq<Message> -> Option<ModelReply>, prompt: string): (r: Option<AgentState>)
    ensures r.Some? ==> r.value.history != [] && r.value.collected == s.collected && r.value.phase == s.phase
  {
    var sent := SystemSlot(s.history, prompt);
    match llm(sent)
    case None => None
    case Some(reply) =>
      var buffer := if reply.toolCalls == [] then FormatBotResponse(reply.content) else [];
      Some(s.(history := sent + [Ai(reply.content, reply.toolCalls)], buffer := buffer))
  }

  /**
    The agent step fails exactly when the model call does; otherwise the history is what
    was sent plus the model's turn, and the buffer holds that turn's bubbles unless it
    asks for tools, in which case it is emptied.
  */
  lemma {:induction false} AgentStepReply(s: AgentState, llm: seq<Message> -> Option<ModelReply>, prompt: string)
    ensures var sent := SystemSlot(s.history, prompt);
            var r := AgentStep(s, llm, prompt);
      && (r.None? <==> llm(sent).None?)
      && (r.Some? ==>
            && |r.value.history| == |sent| + 1
            && r.value.history[..|sent|] == sent
            && r.value.history[|sent|] == Ai(llm(sent).value.content, llm(sent).value.toolCalls)
            && var last := r.value.history[|sent|];
            && (HasToolCalls(last) ==> r.value.buffer == [])
            && (!HasToolCalls(last) ==> r.value.buffer == FormatBotResponse(last.text)))
  {
    var sent := SystemSlot(s.history, prompt);
    if llm(sent).Some? {
      assert (sent + [Ai(llm(sent).value.content, llm(sent).value.toolCalls)])[..|sent|] == sent;
    }
  }

  // ---------------------------------------------------------------------------
  // Router, tools node and the cycle
  // ---------------------------------------------------------------------------

  datatype Next = ToolsNode | End

  /** route_after_agent: to the tools node exactly when the last message asks for tools. */
  function RouteAfterAgent(history: seq<Message>): (n: Next)
    requires history != []
    ensures n == ToolsNode <==> HasToolCalls(history[|history| - 1])
  {
    if HasToolCalls(history[|history| - 1]) then ToolsNode else End
  }

  /** ejecutar_herramientas: the tool results for the last message, appended to the history. */
  function ToolsStep(s: AgentState, tools: Message -> seq<Message>): (r: AgentState)
    requires s.history != []
    ensures |r.history| >= |s.history| && r.history[..|s.history|] == s.history
    ensures r.history[|s.history|..] == tools(s.history[|s.history| - 1])
    ensures r.collected == s.collected && r.phase == s.phase && r.buffer == s.buffer
  {
    s.(history := s.history + tools(s.history[|s.history| - 1]))
  }

  /** The tool executor answers every call once, in call order (a property of the library). */
  ghost predicate AnswersEachCall(tools: Message -> seq<Message>) {
    forall m: Message :: m.Ai? ==>
      && |tools(m)| == |m.toolCalls|
      && forall k :: 0 <= k < |m.toolCalls| ==> tools(m)[k].Tool? && tools(m)[k].callId == m.toolCalls[k].id
  }

  /** Under that assumption, a tools step appends one result per call, matching ids in order. */
  lemma {:induction false} ToolResultsMatchCalls(s: AgentState, tools: Message -> seq<Message>)
    requires AnswersEachCall(tools) && s.history != [] && HasToolCalls(s.history[|s.history| - 1])
    ensures var calls := s.history[|s.history| - 1].toolCalls;
            var added := ToolsStep(s, tools).history[|s.history|..];
      && |added| == |calls|
      && forall k :: 0 <= k < |calls| ==> added[k].Tool? && added[k].callId == calls[k].id
  {
  }

  datatype Outcome = Done(state: AgentState) | Raised | OutOfFuel

  /**
    graph.invoke for a given agent node: run the agent; stop if it raised; end when its last
    message asks for no tools; otherwise run the tools node and visit the agent again.
    `agent(s, k)` is the agent node's k-th visit. Reading the last message of an empty
    history raises, as indexing `[-1]` does.
  */
  function Run(s: AgentState, agent: (AgentState, nat) -> Option<AgentState>, tools: Message -> seq<Message>,
               step: nat, fuel: nat): (o: Outcome)
    ensures o.Done? ==> o.state.history != [] && RouteAfterAgent(o.state.history) == End
    decreases fuel
  {
    if fuel == 0 then OutOfFuel
    else
      match agent(s, step)
      case None => Raised
      case Some(a) =>
        if a.history == [] then Raised
        else if RouteAfterAgent(a.history) == End then Done(a)
        else Run(ToolsStep(a, tools), agent, tools, step + 1, fuel - 1)
  }

  /** A visit that routes to the tools leaves the rest of the run to the state after them. */
  lemma {:induction false} RunAdvances(s: AgentState, agent: (AgentState, nat) -> Option<AgentState>,
                                       tools: Message -> seq<Message>, step: nat, fuel: nat)
    requires fuel > 0 && agent(s, step).Some? && agent(s, step).value.history != []
    requires RouteAfterAgent(agent(s, step).value.history) != End
    ensures Run(s, agent, tools, step, fuel) == Run(ToolsStep(agent(s, step).value, tools), agent, tools, step + 1, fuel - 1)
  {
  }

  /** A visit that routes to END finishes the run with the visit's state. */
  lemma {:induction false} RunStops(s: AgentState, agent: (AgentState, nat) -> Option<AgentState>,
                                    tools: Message -> seq<Message>, step: nat, fuel: nat)
    requires fuel > 0 && agent(s, step).Some? && agent(s, step).value.history != []
    requires RouteAfterAgent(agent(s, step).value.history) == End
    ensures Run(s, agent, tools, step, fuel) == Done(agent(s, step).value)
  {
  }

  /** The agent node of this graph: its k-th visit reads the clock's k-th reading. */
  function AgentNode(env: Env): (agent: (AgentState, nat) -> Option<AgentState>)
    ensures forall s: AgentState, k: nat :: agent(s, k).Some? ==>
      agent(s, k).value.history != [] && agent(s, k).value.collected == s.collected && agent(s, k).value.phase == s.phase
  {
    var f := (s: AgentState, k: nat) => AgentStep(s, env.llm, SystemPrompt(env.persona, env.clock(k)));
    assert forall s: AgentState, k: nat :: f(s, k) == AgentStep(s, env.llm, SystemPrompt(env.persona, env.clock(k)));
    f
  }

  /** The agent node as written: in-place update of slot 0, annex loop, one model call. */
  method ReasoningStep(s: AgentState, env: Env, step: nat) returns (r: Option<AgentState>)
    ensures r == AgentNode(env)(s, step)
  {
    var now := env.clock(step);
    var messages := s.history;
    var annex := TemporalAnnex(now);
    var prompt := env.persona + annex;
    assert prompt == SystemPrompt(env.persona, now);
    if messages == [] {
      messages := [System(prompt)];
    } else if messages[0].System? {
      messages := messages[0 := System(prompt)];
    } else {
      messages := [System(prompt)] + messages;
    }
    assert messages == SystemSlot(s.history, prompt);
    var reply := env.llm(messages);
    if reply.None? {
      return None;
    }
    var buffer := [];
    if reply.value.toolCalls == [] {
      buffer := FormatBotResponse(reply.value.content);
    }
    r := Some(s.(history := messages + [Ai(reply.value.content, reply.value.toolCalls)], buffer := buffer));
  }

  /** The cycle as a loop over the two nodes. */
  method Invoke(init: AgentState, env: Env, fuel: nat) returns (o: Outcome)
    ensures o == Run(init, AgentNode(env), env.tools, 0, fuel)
  {
    ghost var agent := AgentNode(env);
    var s, step, left := init, 0, fuel;
    while left > 0
      invariant Run(s, agent, env.tools, step, left) == Run(init, agent, env.tools, 0, fuel)
      decreases left
    {
      var a := ReasoningStep(s, env, step);
      assert a == agent(s, step);
      if a.None? {
        return Raised;
      }
      if a.value.history == [] {
        return Raised;
      }
      if RouteAfterAgent(a.value.history) == End {
        return Done(a.value);
      }
      RunAdvances(s, agent, env.tools, step, left);
      s := ToolsStep(a.value, env.tools);
      step, left := step + 1, left - 1;
    }
    return OutOfFuel;
  }

  predicate IsPrefix(p: seq<Message>, h: seq<Message>) {
    |p| <= |h| && h[..|p|] == p
  }

  lemma {:induction false} AgentStepConversation(s: AgentState, llm: seq<Message> -> Option<ModelReply>, prompt: string)
    requires AgentStep(s, llm, prompt).Some?
    ensures var a := AgentStep(s, llm, prompt).value;
      && a.history[0] == System(prompt)
      && Conversation(a.history) == Conversation(s.history) + [a.history[|a.history| - 1]]
  {
    AgentStepReply(s, llm, prompt);
    var a := AgentStep(s, llm, prompt).value;
    var sent := SystemSlot(s.history, prompt);
    assert a.history == sent + [a.history[|a.history| - 1]];
    assert a.history[1..] == sent[1..] + [a.history[|a.history| - 1]];
  }

  /**
    What every visit of an agent node guarantees: slot 0 holds a system prompt, the earlier
    conversation gets exactly one model turn appended, the buffer holds that turn's bubbles
    when it asks for no tools, and lead data and phase are untouched.
  */
  ghost predicate WellBehaved(agent: (AgentState, nat) -> Option<AgentState>) {
    forall s: AgentState, k: nat {:trigger agent(s, k)} :: agent(s, k).Some? ==>
      var a := agent(s, k).value;
      && a.history != [] && a.history[0].System?
      && var last := a.history[|a.history| - 1];
      && Conversation(a.history) == Conversation(s.history) + [last]
      && last.Ai?
      && (last.toolCalls == [] ==> a.buffer == FormatBotResponse(last.text))
      && a.collected == s.collected && a.phase == s.phase
  }

  /** The graph's agent node behaves so, whatever the model, clock and persona. */
  lemma {:induction false} AgentNodeWellBehaved(env: Env)
    ensures WellBehaved(AgentNode(env))
  {
    forall s: AgentState, k: nat | AgentNode(env)(s, k).Some?
      ensures var a := AgentNode(env)(s, k).value;
        && a.history != [] && a.history[0].System?
        && var last := a.history[|a.history| - 1];
        && Conversation(a.history) == Conversation(s.history) + [last]
        && last.Ai?
        && (last.toolCalls == [] ==> a.buffer == FormatBotResponse(last.text))
        && a.collected == s.collected && a.phase == s.phase
    {
      var p := SystemPrompt(env.persona, env.clock(k));
      AgentStepReply(s, env.llm, p);
      AgentStepConversation(s, env.llm, p);
    }
  }

  lemma {:induction false} IsPrefixTrans(p: seq<Message>, q: seq<Message>, h: seq<Message>)
    requires IsPrefix(p, q) && IsPrefix(q, h)
    ensures IsPrefix(p, h)
  {
    assert h[..|p|] == h[..|q|][..|p|];
  }

  /** One visit of a well-behaved agent node keeps the earlier conversation as a prefix. */
  lemma {:induction false} VisitKeepsConversation(agent: (AgentState, nat) -> Option<AgentState>, s: AgentState, k: nat)
    requires WellBehaved(agent) && agent(s, k).Some?
    ensures var a := agent(s, k).value;
      && a.history != [] && a.history[0].System?
      && IsPrefix(Conversation(s.history), Conversation(a.history))
      && a.collected == s.collected && a.phase == s.phase
  {
    var a := agent(s, k).value;
    var cs := Conversation(s.history);
    assert Conversation(a.history) == cs + [a.history[|a.history| - 1]];
    assert Conversation(a.history)[..|cs|] == cs;
  }

  /** The tools node only appends, so it keeps the conversation as a prefix too. */
  lemma {:induction false} ToolsKeepConversation(a: AgentState, tools: Message -> seq<Message>)
    requires a.history != [] && a.history[0].System?
    ensures var t := ToolsStep(a, tools);
      && t.history[0].System?
      && IsPrefix(Conversation(a.history), Conversation(t.history))
  {
    var t := ToolsStep(a, tools);
    assert t.history == a.history + t.history[|a.history|..];
    assert t.history[1..] == a.history[1..] + t.history[|a.history|..];
    assert t.history[1..][..|a.history| - 1] == a.history[1..];
  }

  /**
    How a finished run leaves the state `r` it started from `s`: it ends on a model turn
    that asks for no tools, its buffer is that reply cut into bubbles, slot 0 holds a
    system prompt, the earlier conversation is kept as a prefix, and lead data and phase
    are untouched.
  */
  ghost predicate EndsOnPlainReply(s: AgentState, r: AgentState) {
    && r.history != [] && r.history[0].System?
    && var last := r.history[|r.history| - 1];
    && last.Ai? && last.toolCalls == []
    && r.buffer == FormatBotResponse(last.text)
    && IsPrefix(Conversation(s.history), Conversation(r.history))
    && r.collected == s.collected && r.phase == s.phase
  }

  /** A visit that routes to END leaves the state as a finished run must. */
  lemma {:induction false} PlainVisitEnds(agent: (AgentState, nat) -> Option<AgentState>, s: AgentState, k: nat)
    requires WellBehaved(agent) && agent(s, k).Some?
    requires RouteAfterAgent(agent(s, k).value.history) == End
    ensures EndsOnPlainReply(s, agent(s, k).value)
  {
    VisitKeepsConversation(agent, s, k);
  }

  /** Whatever ends on a plain reply after the tools step ends on one after the visit before it. */
  lemma {:induction false} ToolsVisitEnds(agent: (AgentState, nat) -> Option<AgentState>, tools: Message -> seq<Message>,
                                          s: AgentState, k: nat, r: AgentState)
    requires WellBehaved(agent) && agent(s, k).Some?
    requires EndsOnPlainReply(ToolsStep(agent(s, k).value, tools), r)
    ensures EndsOnPlainReply(s, r)
  {
    var a := agent(s, k).value;
    var t := ToolsStep(a, tools);
    VisitKeepsConversation(agent, s, k);
    ToolsKeepConversation(a, tools);
    IsPrefixTrans(Conversation(s.history), Conversation(a.history), Conversation(t.history));
    IsPrefixTrans(Conversation(s.history), Conversation(t.history), Conversation(r.history));
  }

  /** A finished run ends right after an agent visit whose reply asked for no tools. */
  lemma {:induction false} RunEndsOnPlainReply(s: AgentState, agent: (AgentState, nat) -> Option<AgentState>,
                                               tools: Message -> seq<Message>, step: nat, fuel: nat)
    requires WellBehaved(agent) && Run(s, agent, tools, step, fuel).Done?
    ensures EndsOnPlainReply(s, Run(s, agent, tools, step, fuel).state)
    decreases fuel
  {
    var a := agent(s, step).value;
    if RouteAfterAgent(a.history) == End {
      RunStops(s, agent, tools, step, fuel);
      PlainVisitEnds(agent, s, step);
    } else {
      var t := ToolsStep(a, tools);
      RunAdvances(s, agent, tools, step, fuel);
      RunEndsOnPlainReply(t, agent, tools, step + 1, fuel - 1);
      ToolsVisitEnds(agent, tools, s, step, Run(t, agent, tools, step + 1, fuel - 1).state);
    }
  }

  /** A run that has finished within some fuel gives the same result with any more fuel. */
  lemma {:induction false} RunFuelIrrelevant(s: AgentState, agent: (AgentState, nat) -> Option<AgentState>,
                                             tools: Message -> seq<Message>, step: nat, fuel: nat, more: nat)
    requires !Run(s, agent, tools, step, fuel).OutOfFuel?
    ensures Run(s, agent, tools, step, fuel + more) == Run(s, agent, tools, step, fuel)
    decreases fuel
  {
    var a := agent(s, step);
    if a.Some? && a.value.history != [] && RouteAfterAgent(a.value.history) != End {
      RunFuelIrrelevant(ToolsStep(a.value, tools), agent, tools, step + 1, fuel - 1, more);
    }
  }

  /** A model that always answers and always asks for tools. */
  ghost predicate AlwaysAsksForTools(llm: seq<Message> -> Option<ModelReply>) {
    forall h :: llm(h).Some? && llm(h).value.toolCalls != []
  }

  /** Then every visit of the graph's agent node answers and routes to the tools node. */
  lemma {:induction false} AgentNodeAlwaysToTools(env: Env, s: AgentState, k: nat)
    requires AlwaysAsksForTools(env.llm)
    ensures var a := AgentNode(env)(s, k);
      a.Some? && a.value.history != [] && RouteAfterAgent(a.value.history) == ToolsNode
  {
    var p := SystemPrompt(env.persona, env.clock(k));
    AgentStepReply(s, env.llm, p);
    assert env.llm(SystemSlot(s.history, p)).Some?;
  }

  /** The graph sets no bound on the cycle: with such a model no amount of fuel finishes it. */
  lemma {:induction false} NoBoundOnTheCycle(s: AgentState, env: Env, step: nat, fuel: nat)
    requires AlwaysAsksForTools(env.llm)
    ensures Run(s, AgentNode(env), env.tools, step, fuel) == OutOfFuel
    decreases fuel
  {
    if fuel > 0 {
      AgentNodeAlwaysToTools(env, s, step);
      var a := AgentNode(env)(s, step).value;
      NoBoundOnTheCycle(ToolsStep(a, env.tools), env, step + 1, fuel - 1);
    }
  }
}
