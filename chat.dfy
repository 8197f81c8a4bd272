/**
 * The chat widget: a conversation with the language model whose reply
 * arrives as a stream of chunks. The reply is accumulated chunk by chunk
 * into the last message; when the accumulated text contains the handoff
 * marker, the widget stops reading, keeps the text without the marker and
 * offers a WhatsApp conversation with a person. The chat session and the
 * stream are parameters: the chunks it yields and whether it ends by
 * throwing.
 */
module Chat {
  import opened Wrappers
  import opened Text
  import opened Types

  const Marker: string := "[HANDOFF]"

  const Greeting: string := "¡Hola! 👋 Soy EsteBot, tu asistente virtual. ¿En qué puedo ayudarte hoy?"

  const Apology: string := "Lo siento, estoy teniendo problemas para conectarme. Por favor, intenta de nuevo más tarde."

  const WhatsAppPrefix: string := "Hola Vape del Este, necesesito ayuda con lo siguiente: "

  /** How the stream's iteration ends once its chunks are read. */
  datatype Ending = Completes | Throws

  /** A chunk's `text` may be missing. */
  datatype Stream = Stream(chunks: seq<Option<string>>, ending: Ending)

  /** `sendMessageStream`: a stream, or an exception before any chunk. */
  datatype SendResult = Started(stream: Stream) | SendFailed

  /** `text += chunk.text`: a missing text is appended as "undefined". */
  function ChunkText(c: Option<string>): string {
    if c.Some? then c.value else "undefined"
  }

  function Texts(chunks: seq<Option<string>>): (ts: seq<string>)
    ensures |ts| == |chunks|
    ensures forall i :: 0 <= i < |chunks| ==> ts[i] == ChunkText(chunks[i])
  {
    seq(|chunks|, i requires 0 <= i < |chunks| => ChunkText(chunks[i]))
  }

  function Concat(ts: seq<string>): string {
    if ts == [] then "" else ts[0] + Concat(ts[1..])
  }

  lemma {:induction false} ConcatAppend(a: seq<string>, b: seq<string>)
    ensures Concat(a + b) == Concat(a) + Concat(b)
  {
    if a != [] {
      assert (a + b)[1..] == a[1..] + b;
      ConcatAppend(a[1..], b);
    } else {
      assert a + b == b;
    }
  }

  /** The text kept on handoff: the first marker removed, then trimmed. */
  function HandoffText(acc: string): string {
    Trim(ReplaceFirst(acc, Marker, ""))
  }

  /** How reading the reply ends: every chunk read, or the marker found. */
  datatype FoldEnd = Finished(text: string) | HandedOff(text: string)

  /**
   * The accumulation loop from the text `acc` read so far: each chunk is
   * appended, and the first accumulated text that contains the marker
   * stops the reading.
   */
  function StreamFold(acc: string, ts: seq<string>): FoldEnd
    decreases |ts|
  {
    if ts == [] then Finished(acc)
    else
      var next := acc + ts[0];
      if Contains(next, Marker) then HandedOff(HandoffText(next))
      else StreamFold(next, ts[1..])
  }

  /** One chunk of the accumulation loop. */
  lemma FoldStep(acc: string, ts: seq<string>)
    requires ts != []
    ensures Contains(acc + ts[0], Marker) ==> StreamFold(acc, ts) == HandedOff(HandoffText(acc + ts[0]))
    ensures !Contains(acc + ts[0], Marker) ==> StreamFold(acc, ts) == StreamFold(acc + ts[0], ts[1..])
  {
  }

  /** Without the marker, the reply is the concatenation of all chunks, and it does not contain the marker. */
  lemma {:induction false} FinishedIsConcat(acc: string, ts: seq<string>)
    requires StreamFold(acc, ts).Finished?
    ensures StreamFold(acc, ts).text == acc + Concat(ts)
    ensures ts != [] ==> !Contains(StreamFold(acc, ts).text, Marker)
    decreases |ts|
  {
    if ts != [] {
      FinishedIsConcat(acc + ts[0], ts[1..]);
      assert acc + ts[0] + Concat(ts[1..]) == acc + Concat(ts);
    }
  }

  /** The text accumulated after the first `k` chunks. */
  function Prefix(acc: string, ts: seq<string>, k: nat): string
    requires k <= |ts|
  {
    acc + Concat(ts[..k])
  }

  lemma PrefixStep(acc: string, ts: seq<string>, j: nat)
    requires 0 < j <= |ts|
    ensures Prefix(acc, ts, j) == Prefix(acc + ts[0], ts[1..], j - 1)
  {
    assert ts[..j][1..] == ts[1..][..j - 1];
  }

  /** The number of chunks read before the handoff. */
  function HandoffPoint(acc: string, ts: seq<string>): nat
    requires StreamFold(acc, ts).HandedOff?
    decreases |ts|
  {
    if Contains(acc + ts[0], Marker) then 1 else 1 + HandoffPoint(acc + ts[0], ts[1..])
  }

  /**
   * On handoff the text kept is made from the first accumulated prefix of
   * the chunks that contains the marker.
   */
  lemma {:induction false} HandedOffAtFirstMarker(acc: string, ts: seq<string>)
    requires StreamFold(acc, ts).HandedOff?
    ensures 0 < HandoffPoint(acc, ts) <= |ts|
    ensures Contains(Prefix(acc, ts, HandoffPoint(acc, ts)), Marker)
    ensures StreamFold(acc, ts).text == HandoffText(Prefix(acc, ts, HandoffPoint(acc, ts)))
    ensures forall j :: 0 < j < HandoffPoint(acc, ts) ==> !Contains(Prefix(acc, ts, j), Marker)
    decreases |ts|
  {
    var next := acc + ts[0];
    var k := HandoffPoint(acc, ts);
    PrefixStep(acc, ts, 1);
    assert Prefix(next, ts[1..], 0) == next;
    if !Contains(next, Marker) {
      HandedOffAtFirstMarker(next, ts[1..]);
      PrefixStep(acc, ts, k);
      forall j | 0 < j < k ensures !Contains(Prefix(acc, ts, j), Marker) {
        PrefixStep(acc, ts, j);
      }
    }
  }

  /** Once the marker is found, chunks after it are never read. */
  lemma {:induction false} HandoffIgnoresLaterChunks(acc: string, ts: seq<string>, more: seq<string>)
    requires StreamFold(acc, ts).HandedOff?
    ensures StreamFold(acc, ts + more) == StreamFold(acc, ts)
    decreases |ts|
  {
    assert (ts + more)[0] == ts[0];
    if !Contains(acc + ts[0], Marker) {
      assert (ts + more)[1..] == ts[1..] + more;
      HandoffIgnoresLaterChunks(acc + ts[0], ts[1..], more);
    }
  }

  /** A reply that ends with the marker hands off the text before it, trimmed. */
  lemma HandoffTextAtEnd(a: string)
    requires '[' !in a
    ensures HandoffText(a + Marker) == Trim(a)
  {
    forall j | 0 <= j < |a| ensures !OccursAt(a + Marker + "", Marker, j) {
      assert (a + Marker + "")[j] == a[j];
      assert Marker[0] == '[';
    }
    ReplaceFirstAt(a, Marker, "", "");
    assert a + Marker + "" == a + Marker;
    assert a + "" + "" == a;
  }

  /** The marker is found even when it is split across two chunks. */
  lemma MarkerAcrossChunks(a: string, c1: string, c2: string)
    requires '[' !in a
    requires c1 + c2 == a + Marker && c2 != []
    ensures StreamFold("", [c1, c2]) == HandedOff(Trim(a))
  {
    assert "" + c1 == c1;
    forall j | 0 <= j <= |c1| ensures !OccursAt(c1, Marker, j) {
      if j < |a| && j < |c1| {
        assert c1[j] == (c1 + c2)[j] == (a + Marker)[j] == a[j];
      }
    }
    assert !Contains(c1, Marker);
    assert [c1, c2][1..] == [c2];
    assert (a + Marker)[|a|..|a| + |Marker|] == Marker;
    assert OccursAt(c1 + c2, Marker, |a|);
    assert Contains(c1 + c2, Marker);
    HandoffTextAtEnd(a);
  }

  /** The messages that follow the user's, and the handoff text if the reply asked for a person. */
  datatype Reply = Reply(messages: seq<ChatMessage>, handoff: Option<string>)

  /**
   * What one send adds after the user's message: the apology when the
   * stream cannot start; otherwise the bot's message with the text read,
   * followed by the apology when the stream throws before a handoff.
   */
  function ReplyOf(result: SendResult): (r: Reply)
    ensures result.SendFailed? ==> r == Reply([ChatMessage(Bot, Apology)], None)
    ensures result.Started? ==> |r.messages| >= 1 && r.messages[0].sender == Bot
    ensures r.handoff.Some? ==> result.Started? && r.messages == [ChatMessage(Bot, r.handoff.value)]
  {
    match result
    case SendFailed => Reply([ChatMessage(Bot, Apology)], None)
    case Started(s) =>
      match StreamFold("", Texts(s.chunks))
      case HandedOff(t) => Reply([ChatMessage(Bot, t)], Some(t))
      case Finished(t) =>
        Reply([ChatMessage(Bot, t)] + (if s.ending == Throws then [ChatMessage(Bot, Apology)] else []), None)
  }

  /** The reply of a stream that started, by how reading it ends. */
  lemma ReplyOfStarted(s: Stream)
    ensures var f := StreamFold("", Texts(s.chunks));
            && (f.HandedOff? ==> ReplyOf(Started(s)) == Reply([ChatMessage(Bot, f.text)], Some(f.text)))
            && (f.Finished? && s.ending == Completes ==> ReplyOf(Started(s)) == Reply([ChatMessage(Bot, f.text)], None))
            && (f.Finished? && s.ending == Throws ==>
                  ReplyOf(Started(s)) == Reply([ChatMessage(Bot, f.text), ChatMessage(Bot, Apology)], None))
  {
  }

  /** A reply with no marker in any prefix is shown whole, the concatenation of its chunks. */
  lemma ReplyWithoutHandoff(s: Stream)
    requires StreamFold("", Texts(s.chunks)).Finished?
    ensures ReplyOf(Started(s)).messages[0] == ChatMessage(Bot, Concat(Texts(s.chunks)))
    ensures ReplyOf(Started(s)).handoff.None?
  {
    FinishedIsConcat("", Texts(s.chunks));
    assert "" + Concat(Texts(s.chunks)) == Concat(Texts(s.chunks));
  }

  /** The WhatsApp message: the fixed request for help followed by the handoff text. */
  function WhatsAppText(handoffMessage: string): (t: string)
    ensures |t| == |WhatsAppPrefix| + |handoffMessage|
    ensures t[..|WhatsAppPrefix|] == WhatsAppPrefix && t[|WhatsAppPrefix|..] == handoffMessage
  {
    WhatsAppPrefix + handoffMessage
  }

  class ChatbotWidget {
    var messages: seq<ChatMessage>
    var input: string
    var isLoading: bool
    var showHandoff: bool
    var handoffMessage: string
    /** Whether a chat session has been started (`chatRef.current`). */
    var hasSession: bool

    constructor()
      ensures messages == [] && input == [] && !isLoading && !showHandoff && handoffMessage == [] && !hasSession
    {
      messages := [];
      input := [];
      isLoading := false;
      showHandoff := false;
      handoffMessage := [];
      hasSession := false;
    }

    /** The open effect: with products, a new session and a conversation reset to the greeting. */
    method Open(isOpen: bool, products: seq<Product>)
      modifies this
      ensures isOpen && products != [] ==>
        hasSession && messages == [ChatMessage(Bot, Greeting)] && !isLoading && !showHandoff && input == [] &&
        handoffMessage == old(handoffMessage)
      ensures !(isOpen && products != []) ==> unchanged(this)
    {
      if isOpen && |products| > 0 {
        hasSession := true;
        messages := [ChatMessage(Bot, Greeting)];
        isLoading := false;
        showHandoff := false;
        input := [];
      }
    }

    method EditInput(text: string)
      modifies this
      ensures input == text
      ensures messages == old(messages) && isLoading == old(isLoading) && showHandoff == old(showHandoff)
      ensures handoffMessage == old(handoffMessage) && hasSession == old(hasSession)
    {
      input := text;
    }

    /**
     * `handleSend`. Blank input or no session changes nothing. Otherwise
     * the user's message is added, the input cleared and the handoff
     * hidden, the reply read as `ReplyOf` describes, and loading ends.
     */
    method Send(result: SendResult)
      modifies this
      ensures IsBlank(old(input)) || !old(hasSession) ==> unchanged(this)
      ensures !IsBlank(old(input)) && old(hasSession) ==>
        messages == old(messages) + [ChatMessage(UserSender, old(input))] + ReplyOf(result).messages &&
        input == [] && !isLoading && hasSession &&
        showHandoff == ReplyOf(result).handoff.Some? &&
        handoffMessage == (if ReplyOf(result).handoff.Some? then ReplyOf(result).handoff.value else old(handoffMessage))
    {
      if IsBlank(input) || !hasSession {
        return;
      }
      var userMessage := ChatMessage(UserSender, input);
      messages := messages + [userMessage];
      input := [];
      isLoading := true;
      showHandoff := false;

      match result {
        case SendFailed =>
          messages := messages + [ChatMessage(Bot, Apology)];
        case Started(stream) =>
          ReadStream(stream);
      }
      isLoading := false;
    }

    /**
     * The streaming part of `handleSend`: an empty bot message is added and
     * then holds the text read, until the marker shows up or the stream
     * ends; a stream that throws before a handoff is followed by the
     * apology.
     */
    method ReadStream(stream: Stream)
      requires !showHandoff
      modifies this
      ensures messages == old(messages) + ReplyOf(Started(stream)).messages
      ensures showHandoff == ReplyOf(Started(stream)).handoff.Some?
      ensures handoffMessage == (if showHandoff then ReplyOf(Started(stream)).handoff.value else old(handoffMessage))
      ensures input == old(input) && isLoading == old(isLoading) && hasSession == old(hasSession)
    {
      var before := messages;
      messages := before + [ChatMessage(Bot, "")];
      var shown, handedOff := Accumulate(Texts(stream.chunks));
      // the last message, the bot's, is rewritten
      messages := before + [ChatMessage(Bot, shown)];
      ReplyOfStarted(stream);
      if handedOff {
        handoffMessage := shown;
        showHandoff := true;
      } else if stream.ending == Throws {
        messages := messages + [ChatMessage(Bot, Apology)];
      }
    }
  }

  /**
   * The accumulation loop of `handleSend`: each chunk's text is appended,
   * and the first accumulated text that contains the marker stops the
   * reading and is replaced by the text kept for the handoff.
   */
  method Accumulate(ts: seq<string>) returns (shown: string, handedOff: bool)
    ensures StreamFold("", ts) == (if handedOff then HandedOff(shown) else Finished(shown))
  {
    var botResponseText := "";
    var i := 0;
    handedOff := false;
    shown := "";
    while i < |ts| && !handedOff
      invariant 0 <= i <= |ts|
      invariant !handedOff ==> shown == botResponseText && StreamFold("", ts) == StreamFold(botResponseText, ts[i..])
      invariant handedOff ==> StreamFold("", ts) == HandedOff(shown)
      decreases |ts| - i
    {
      FoldStep(botResponseText, ts[i..]);
      assert ts[i..][0] == ts[i] && ts[i..][1..] == ts[i + 1..];
      botResponseText := botResponseText + ts[i];
      i := i + 1;
      if Contains(botResponseText, Marker) {
        shown := HandoffText(botResponseText);
        handedOff := true;
      } else {
        shown := botResponseText;
      }
    }
    if !handedOff {
      assert ts[i..] == [];
    }
  }
}
