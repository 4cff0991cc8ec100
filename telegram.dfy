/**
  The Telegram front end (scripts/bot_telegram.py): `/start` resets a chat, a text
  message is admitted into the chat's state, the graph runs, its result replaces the
  stored state, and the reply buffer is delivered bubble by bubble. Each non-blank bubble
  is preceded by a typing action and is first sent with Markdown parsing after turning
  `**` into `*`; if Telegram refuses that, the untranslated bubble is sent once more as
  plain text, and if that is refused too the handler raises and the rest is not sent.
  Sends are recorded in an outbox; whether Telegram accepts a send is an oracle.
*/
module Telegram {
  import opened Wrappers
  import opened Text
  import opened Messages
  import opened Agent
  import opened Sessions

  const Greeting := "Hola, soy Ricardo. ¿En qué te puedo ayudar hoy?"

  datatype ParseMode = Markdown | Plain

  /** What the bot asks Telegram to do; `accepted` is Telegram's answer to a send. */
  datatype Event =
    | Typing(chat: int)
    | Reply(chat: int, text: string, mode: ParseMode, accepted: bool)

  /** Telegram's bold marker is a single asterisk: every `**` of the model becomes `*`. */
  function TelegramMarkdown(bubble: string): (r: string)
    ensures |r| <= |bubble|
    ensures Find(bubble, "**").None? ==> r == bubble
  {
    Replace(bubble, "**", "*")
  }

  /** The events one bubble causes, and whether the handler raised on it. */
  datatype Attempt = Attempt(events: seq<Event>, raised: bool)

  /** What one bubble of the buffer makes the bot do. */
  function BubbleAttempt(chat: int, bubble: string, accepts: (string, ParseMode) -> bool): (a: Attempt)
    ensures IsBlank(bubble) ==> a == Attempt([], false)
    ensures !IsBlank(bubble) ==>
      && 2 <= |a.events| <= 3
      && a.events[0] == Typing(chat)
      && a.events[1] == Reply(chat, TelegramMarkdown(bubble), Markdown, accepts(TelegramMarkdown(bubble), Markdown))
      && (|a.events| == 3 <==> !accepts(TelegramMarkdown(bubble), Markdown))
      && (|a.events| == 3 ==> a.events[2] == Reply(chat, bubble, Plain, accepts(bubble, Plain)))
      && (a.raised <==> |a.events| == 3 && !accepts(bubble, Plain))
  {
    if IsBlank(bubble) then Attempt([], false)
    else
      var formatted := TelegramMarkdown(bubble);
      var first := Reply(chat, formatted, Markdown, accepts(formatted, Markdown));
      if first.accepted then Attempt([Typing(chat), first], false)
      else
        var fallback := Reply(chat, bubble, Plain, accepts(bubble, Plain));
        Attempt([Typing(chat), first, fallback], !fallback.accepted)
  }

  /** The events the delivery loop records for a buffer, in buffer order; it stops at a raise. */
  function Delivery(chat: int, buffer: seq<string>, accepts: (string, ParseMode) -> bool): (d: Attempt)
    ensures |d.events| <= 3 * |NonBlank(buffer)|
    ensures forall k :: 0 <= k < |d.events| ==> d.events[k].chat == chat
    decreases |buffer|
  {
    if buffer == [] then Attempt([], false)
    else
      var before := Delivery(chat, buffer[..|buffer| - 1], accepts);
      if before.raised then before
      else
        var last := BubbleAttempt(chat, buffer[|buffer| - 1], accepts);
        Attempt(before.events + last.events, last.raised)
  }

  /** The text a bubble shows in the chat once delivered: the Markdown form, else the plain one. */
  function Shown(bubble: string, accepts: (string, ParseMode) -> bool): string {
    if accepts(TelegramMarkdown(bubble), Markdown) then TelegramMarkdown(bubble) else bubble
  }

  /** The accepted replies of an event log, in order. */
  function AcceptedTexts(events: seq<Event>): (r: seq<string>)
    ensures |r| <= |events|
  {
    if events == [] then []
    else
      var e := events[|events| - 1];
      AcceptedTexts(events[..|events| - 1]) + (if e.Reply? && e.accepted then [e.text] else [])
  }

  /** The typing actions of an event log. */
  function TypingCount(events: seq<Event>): (n: nat)
    ensures n <= |events|
  {
    if events == [] then 0
    else TypingCount(events[..|events| - 1]) + (if events[|events| - 1].Typing? then 1 else 0)
  }

  lemma {:induction false} AcceptedTextsAppend(a: seq<Event>, b: seq<Event>)
    ensures AcceptedTexts(a + b) == AcceptedTexts(a) + AcceptedTexts(b)
    decreases |b|
  {
    if b == [] {
      assert a + b == a;
    } else {
      var b' := b[..|b| - 1];
      assert (a + b)[..|a + b| - 1] == a + b';
      AcceptedTextsAppend(a, b');
    }
  }

  lemma {:induction false} TypingCountAppend(a: seq<Event>, b: seq<Event>)
    ensures TypingCount(a + b) == TypingCount(a) + TypingCount(b)
    decreases |b|
  {
    if b == [] {
      assert a + b == a;
    } else {
      var b' := b[..|b| - 1];
      assert (a + b)[..|a + b| - 1] == a + b';
      TypingCountAppend(a, b');
    }
  }

  /** A bubble that does not raise shows its text once and types once, unless it is blank. */
  lemma {:induction false} BubbleShown(chat: int, bubble: string, accepts: (string, ParseMode) -> bool)
    requires !BubbleAttempt(chat, bubble, accepts).raised
    ensures var ev := BubbleAttempt(chat, bubble, accepts).events;
      && AcceptedTexts(ev) == (if IsBlank(bubble) then [] else [Shown(bubble, accepts)])
      && TypingCount(ev) == (if IsBlank(bubble) then 0 else 1)
  {
    var ev := BubbleAttempt(chat, bubble, accepts).events;
    if !IsBlank(bubble) {
      assert ev[..1][..0] == [];
      assert AcceptedTexts(ev[..1]) == [] && TypingCount(ev[..1]) == 1;
      assert ev[..2][..1] == ev[..1];
      if |ev| == 3 {
        assert AcceptedTexts(ev[..2]) == [] && TypingCount(ev[..2]) == 1;
        assert ev[..|ev| - 1] == ev[..2];
      } else {
        assert ev[..|ev| - 1] == ev[..1];
      }
    }
  }

  /**
    A delivery that does not raise shows every non-blank bubble exactly once, in buffer
    order (the Markdown form where Telegram accepted it, the original otherwise), and
    types once before each of them; blank bubbles cause nothing.
  */
  /** Texts shown for two runs of bubbles, one after the other, are shown in order. */
  lemma {:induction false} ShownInOrderAppend(t1: seq<string>, b1: seq<string>, t2: seq<string>, b2: seq<string>,
                                              accepts: (string, ParseMode) -> bool)
    requires |t1| == |b1| && forall k :: 0 <= k < |b1| ==> t1[k] == Shown(b1[k], accepts)
    requires |t2| == |b2| && forall k :: 0 <= k < |b2| ==> t2[k] == Shown(b2[k], accepts)
    ensures forall k :: 0 <= k < |b1 + b2| ==> (t1 + t2)[k] == Shown((b1 + b2)[k], accepts)
  {
    forall k | 0 <= k < |b1 + b2|
      ensures (t1 + t2)[k] == Shown((b1 + b2)[k], accepts)
    {
      if k >= |b1| {
        assert (t1 + t2)[k] == t2[k - |b1|] && (b1 + b2)[k] == b2[k - |b1|];
      }
    }
  }

  lemma {:induction false} DeliveryShowsNonBlankInOrder(chat: int, buffer: seq<string>, accepts: (string, ParseMode) -> bool)
    requires !Delivery(chat, buffer, accepts).raised
    ensures var ev := Delivery(chat, buffer, accepts).events;
      && |AcceptedTexts(ev)| == |NonBlank(buffer)|
      && (forall k :: 0 <= k < |NonBlank(buffer)| ==> AcceptedTexts(ev)[k] == Shown(NonBlank(buffer)[k], accepts))
      && TypingCount(ev) == |NonBlank(buffer)|
    decreases |buffer|
  {
    if buffer != [] {
      var init, last := buffer[..|buffer| - 1], buffer[|buffer| - 1];
      DeliveryShowsNonBlankInOrder(chat, init, accepts);
      var b := BubbleAttempt(chat, last, accepts);
      var d := Delivery(chat, init, accepts);
      assert !d.raised && !b.raised;
      var ev := d.events + b.events;
      assert Delivery(chat, buffer, accepts).events == ev;
      BubbleShown(chat, last, accepts);
      AcceptedTextsAppend(d.events, b.events);
      TypingCountAppend(d.events, b.events);
      var nb := NonBlank(init);
      var extra := if IsBlank(last) then [] else [last];
      assert NonBlank(buffer) == nb + extra;
      var shown := AcceptedTexts(d.events);
      var more := if IsBlank(last) then [] else [Shown(last, accepts)];
      assert AcceptedTexts(ev) == shown + more;
      ShownInOrderAppend(shown, nb, more, extra, accepts);
    }
  }

  /** A buffer of blank bubbles only makes the bot do nothing at all. */
  lemma {:induction false} BlankBufferSendsNothing(chat: int, buffer: seq<string>, accepts: (string, ParseMode) -> bool)
    requires forall k :: 0 <= k < |buffer| ==> IsBlank(buffer[k])
    ensures Delivery(chat, buffer, accepts) == Attempt([], false)
    decreases |buffer|
  {
    if buffer != [] {
      BlankBufferSendsNothing(chat, buffer[..|buffer| - 1], accepts);
    }
  }

  /** A raise comes from a bubble whose Markdown and plain sends were both refused, and is the last thing done. */
  lemma {:induction false} RaiseEndsOnRefusedPlainSend(chat: int, buffer: seq<string>, accepts: (string, ParseMode) -> bool)
    requires Delivery(chat, buffer, accepts).raised
    ensures var ev := Delivery(chat, buffer, accepts).events;
      && |ev| >= 3
      && ev[|ev| - 1].Reply? && ev[|ev| - 1].mode == Plain && !ev[|ev| - 1].accepted
      && ev[|ev| - 2].Reply? && ev[|ev| - 2].mode == Markdown && !ev[|ev| - 2].accepted
    decreases |buffer|
  {
    var init := buffer[..|buffer| - 1];
    if !Delivery(chat, init, accepts).raised {
      var d := Delivery(chat, init, accepts).events;
      var b := BubbleAttempt(chat, buffer[|buffer| - 1], accepts).events;
      assert (d + b)[|d + b| - 1] == b[2] && (d + b)[|d + b| - 2] == b[1];
    } else {
      RaiseEndsOnRefusedPlainSend(chat, init, accepts);
    }
  }

  class TelegramBot {
    /** `MEMORY_STORAGE`: chat id to graph state. */
    var memory: map<int, AgentState>
    /** Everything asked of Telegram so far, in order. */
    var outbox: seq<Event>

    constructor()
      ensures memory == map[] && outbox == []
    {
      memory := map[];
      outbox := [];
    }

    /** `/start`: the chat's state becomes the fresh one, whether or not it had one; then the greeting. */
    method Start(chat: int, accepts: (string, ParseMode) -> bool)
      modifies this
      ensures memory == old(memory)[chat := FreshState]
      ensures outbox == old(outbox) + [Reply(chat, Greeting, Plain, accepts(Greeting, Plain))]
    {
      memory := memory[chat := FreshState];
      outbox := outbox + [Reply(chat, Greeting, Plain, accepts(Greeting, Plain))];
    }

    /** The delivery loop over the buffer; `raised` when a bubble could not be sent at all. */
    method Deliver(chat: int, buffer: seq<string>, accepts: (string, ParseMode) -> bool) returns (raised: bool)
      modifies this
      ensures memory == old(memory)
      ensures outbox == old(outbox) + Delivery(chat, buffer, accepts).events
      ensures raised == Delivery(chat, buffer, accepts).raised
    {
      raised := false;
      for i := 0 to |buffer|
        invariant memory == old(memory)
        invariant outbox == old(outbox) + Delivery(chat, buffer[..i], accepts).events
        invariant !Delivery(chat, buffer[..i], accepts).raised
      {
        assert buffer[..i + 1][..i] == buffer[..i];
        var bubble := buffer[i];
        var events: seq<Event> := [];
        if !IsBlank(bubble) {
          events := [Typing(chat)];
          var formatted := TelegramMarkdown(bubble);
          var ok := accepts(formatted, Markdown);
          events := events + [Reply(chat, formatted, Markdown, ok)];
          if !ok {
            ok := accepts(bubble, Plain);
            events := events + [Reply(chat, bubble, Plain, ok)];
            raised := !ok;
          }
        }
        assert Attempt(events, raised) == BubbleAttempt(chat, bubble, accepts);
        ConcatAssoc(old(outbox), Delivery(chat, buffer[..i], accepts).events, events);
        outbox := outbox + events;
        if raised {
          DeliveryStopsAtRaise(chat, buffer, i + 1, accepts);
          return;
        }
      }
      assert buffer[..|buffer|] == buffer;
    }

    /**
      A text message: admit it into the chat's state (creating a fresh one for a new
      chat), run the graph, store its result and deliver the buffer. When the graph
      raises, the stored state keeps the appended message and nothing is sent.
    */
    method HandleMessage(chat: int, text: string, env: Env, fuel: nat, accepts: (string, ParseMode) -> bool)
      returns (raised: bool)
      modifies this
      ensures var admitted := Admitted(old(memory), chat, text);
              var o := Run(admitted, AgentNode(env), env.tools, 0, fuel);
        && (o.Done? ==>
              && memory == old(memory)[chat := o.state]
              && outbox == old(outbox) + Delivery(chat, o.state.buffer, accepts).events
              && raised == Delivery(chat, o.state.buffer, accepts).raised)
        && (!o.Done? ==> memory == old(memory)[chat := admitted] && outbox == old(outbox) && raised)
    {
      if chat !in memory {
        memory := memory[chat := FreshState];
      }
      var current := memory[chat];
      memory := memory[chat := current.(history := current.history + [Human(text)])];
      assert memory[chat] == Admitted(old(memory), chat, text);
      var o := Invoke(memory[chat], env, fuel);
      if !o.Done? {
        return true;
      }
      memory := memory[chat := o.state];
      raised := Deliver(chat, o.state.buffer, accepts);
    }
  }

  /** Once a prefix of the buffer raised, the whole delivery is that prefix's. */
  lemma {:induction false} DeliveryStopsAtRaise(chat: int, buffer: seq<string>, i: nat, accepts: (string, ParseMode) -> bool)
    requires i <= |buffer| && Delivery(chat, buffer[..i], accepts).raised
    ensures Delivery(chat, buffer, accepts) == Delivery(chat, buffer[..i], accepts)
    decreases |buffer| - i
  {
    if i < |buffer| {
      assert buffer[..i + 1][..i] == buffer[..i];
      DeliveryStopsAtRaise(chat, buffer, i + 1, accepts);
    } else {
      assert buffer[..i] == buffer;
    }
  }
}
