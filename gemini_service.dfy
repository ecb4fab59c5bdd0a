/**
 * services/geminiService.ts: the system instruction built from a loaded table (total row
 * count, column labels, a sample of at most 100 rows), the single module-level chat
 * session that every initialisation replaces, and `sendMessageToGemini`, which turns
 * every outcome into a reply text instead of throwing.
 */
module GeminiService {
  import opened Wrappers
  import opened Strings
  import opened SheetTypes

  /** The number of rows `data.rows.slice(0, 100)` keeps. */
  const SampleSize := 100

  // ---------------------------------------------------------------------------
  // The system instruction
  // ---------------------------------------------------------------------------

  /** The template text before the total row count. */
  const InstructionHead := "\n      You are an expert Data Analyst named \"Gemini Analyst\".\n      You are analyzing a dataset from a Google Sheet titled \"Vụ việc\" (Cases/Incidents).\n      \n      Dataset Metadata:\n      - Total Rows: "

  /** The template text between the total row count and the column list: a space, then the note. */
  const InstructionAfterTotal := " " + InstructionNote

  const InstructionNote := "(Note: Only the first 100 rows are provided in context for detailed analysis if the dataset is large).\n      - Columns: "

  /** The template text between the column list and the JSON sample. */
  const InstructionAfterColumns := "\n      \n      Current Data Sample (JSON):\n      "

  /** The template text after the JSON sample: the answering rules. */
  const InstructionTail := "\n      \n      Your goal is to answer user questions based STRICTLY on this data.\n      - If the user asks for a summary, analyze the provided rows.\n      - If the user asks for specific details, search the provided JSON.\n      - If the answer is not in the data, state that you cannot find it in the provided sample.\n      - Format your answers nicely using Markdown (lists, bold text, etc.).\n      - Be concise and professional.\n      - IMPORTANT: ALWAYS RESPOND IN VIETNAMESE (Tiếng Việt).\n    "

  /** `data.rows.slice(0, 100)`: the first rows, at most 100 of them. */
  function Sample(rows: seq<Row>): (r: seq<Row>)
    ensures |r| == if |rows| <= SampleSize then |rows| else SampleSize
    ensures forall i | 0 <= i < |r| :: r[i] == rows[i]
  {
    if |rows| <= SampleSize then rows else rows[..SampleSize]
  }

  function Labels(columns: seq<Column>): (r: seq<string>)
    ensures |r| == |columns|
    ensures forall i | 0 <= i < |columns| :: r[i] == columns[i].caption
  {
    seq(|columns|, i requires 0 <= i < |columns| => columns[i].caption)
  }

  /** `data.columns.map(c => c.label).join(', ')`. */
  function ColumnList(columns: seq<Column>): string
  {
    Join(Labels(columns), ", ")
  }

  /** The column list of two runs of columns is theirs joined by ", ", so it follows column order. */
  lemma ColumnListConcat(a: seq<Column>, b: seq<Column>)
    requires |a| >= 1 && |b| >= 1
    ensures ColumnList(a + b) == ColumnList(a) + ", " + ColumnList(b)
  {
    assert Labels(a + b) == Labels(a) + Labels(b);
    JoinConcat(Labels(a), Labels(b), ", ");
  }

  /**
   * The system instruction. `JSON.stringify` is the parameter `stringify`; the template
   * embeds the total row count, the column list and the serialised sample in that order.
   */
  function BuildInstruction(data: SheetData, stringify: seq<Row> -> string): (r: string)
    ensures ReadTotal(r) == Some(|data.rows|)
    ensures Layout(r, InstructionHead, NatToString(|data.rows|), InstructionAfterTotal, ColumnList(data.columns),
                   InstructionAfterColumns, stringify(Sample(data.rows)), InstructionTail)
  {
    var total := NatToString(|data.rows|);
    var columns := ColumnList(data.columns);
    var sample := stringify(Sample(data.rows));
    assert InstructionAfterTotal[0] == ' ';
    var r := InstructionHead + total + InstructionAfterTotal + columns + InstructionAfterColumns + sample + InstructionTail;
    TemplateSlots(r, InstructionHead, total, InstructionAfterTotal, columns, InstructionAfterColumns, sample, InstructionTail);
    NatToStringRoundTrip(|data.rows|);
    r
  }

  /**
   * The seven parts of the template lie in `r` one right after the other, from its first
   * character to its last: the fixed texts and the slots in the template's order.
   */
  predicate Layout(r: string, head: string, total: string, afterTotal: string, columns: string,
                   afterColumns: string, sample: string, tail: string)
  {
    var p1 := |head| + |total|;
    var p2 := p1 + |afterTotal|;
    var p3 := p2 + |columns|;
    var p4 := p3 + |afterColumns|;
    var p5 := p4 + |sample|;
    && OccursAt(r, head, 0)
    && OccursAt(r, total, |head|)
    && OccursAt(r, afterTotal, p1)
    && OccursAt(r, columns, p2)
    && OccursAt(r, afterColumns, p3)
    && OccursAt(r, sample, p4)
    && OccursAt(r, tail, p5)
    && |r| == p5 + |tail|
  }

  /** The layout pins the text down: a text has the layout exactly when it is the seven parts concatenated. */
  lemma LayoutIsConcatenation(r: string, head: string, total: string, afterTotal: string, columns: string,
                              afterColumns: string, sample: string, tail: string)
    ensures Layout(r, head, total, afterTotal, columns, afterColumns, sample, tail) <==>
            r == head + total + afterTotal + columns + afterColumns + sample + tail
  {
    var whole := head + total + afterTotal + columns + afterColumns + sample + tail;
    if r == whole {
      TemplateOffsets(r, head, total, afterTotal, columns, afterColumns, sample, tail);
    }
    if Layout(r, head, total, afterTotal, columns, afterColumns, sample, tail) {
      TemplateOffsets(whole, head, total, afterTotal, columns, afterColumns, sample, tail);
      assert |r| == |whole|;
      forall k | 0 <= k < |r| ensures r[k] == whole[k] {
        SameCharAt(r, whole, head, total, afterTotal, columns, afterColumns, sample, tail, k);
      }
    }
  }

  /** Two texts with the same layout agree at every position. */
  lemma SameCharAt(r: string, r': string, head: string, total: string, afterTotal: string, columns: string,
                   afterColumns: string, sample: string, tail: string, k: int)
    requires Layout(r, head, total, afterTotal, columns, afterColumns, sample, tail)
    requires Layout(r', head, total, afterTotal, columns, afterColumns, sample, tail)
    requires 0 <= k < |r|
    ensures r[k] == r'[k]
  {
    var p1 := |head| + |total|;
    var p2 := p1 + |afterTotal|;
    var p3 := p2 + |columns|;
    var p4 := p3 + |afterColumns|;
    var p5 := p4 + |sample|;
    if k < |head| {
      assert r[k] == r[0..|head|][k] == r'[0..|head|][k];
    } else if k < p1 {
      assert r[k] == r[|head|..p1][k - |head|] == r'[|head|..p1][k - |head|];
    } else if k < p2 {
      assert r[k] == r[p1..p2][k - p1] == r'[p1..p2][k - p1];
    } else if k < p3 {
      assert r[k] == r[p2..p3][k - p2] == r'[p2..p3][k - p2];
    } else if k < p4 {
      assert r[k] == r[p3..p4][k - p3] == r'[p3..p4][k - p3];
    } else if k < p5 {
      assert r[k] == r[p4..p5][k - p4] == r'[p4..p5][k - p4];
    } else {
      assert r[k] == r[p5..|r|][k - p5] == r'[p5..|r|][k - p5];
    }
  }

  /** Where each slot of a filled template sits, whatever the fixed texts around the slots are. */
  lemma TemplateSlots(r: string, head: string, total: string, afterTotal: string, columns: string,
                      afterColumns: string, sample: string, tail: string)
    requires AllDigits(total)
    requires afterTotal != [] && !IsDigit(afterTotal[0])
    requires r == head + total + afterTotal + columns + afterColumns + sample + tail
    ensures LeadingDigits(r[|head|..]) == total
    ensures Layout(r, head, total, afterTotal, columns, afterColumns, sample, tail)
  {
    TemplateTotal(head, total, afterTotal + columns + afterColumns + sample + tail);
    assert r == head + total + (afterTotal + columns + afterColumns + sample + tail);
    TemplateOffsets(r, head, total, afterTotal, columns, afterColumns, sample, tail);
  }

  /** The digits right after the head read back as the total when a non-digit follows them. */
  lemma TemplateTotal(head: string, total: string, rest: string)
    requires AllDigits(total)
    requires rest == [] || !IsDigit(rest[0])
    ensures StartsWith(head + total + rest, head)
    ensures LeadingDigits((head + total + rest)[|head|..]) == total
  {
    assert (head + total + rest)[|head|..] == total + rest;
    LeadingDigitsOfDigits(total, rest);
  }

  /** A concatenation of the seven parts has their layout. */
  lemma TemplateOffsets(r: string, head: string, total: string, afterTotal: string, columns: string,
                        afterColumns: string, sample: string, tail: string)
    requires r == head + total + afterTotal + columns + afterColumns + sample + tail
    ensures Layout(r, head, total, afterTotal, columns, afterColumns, sample, tail)
  {
    var p1 := head + total;
    var p2 := p1 + afterTotal;
    var p3 := p2 + columns;
    var p4 := p3 + afterColumns;
    var p5 := p4 + sample;
    assert OccursAt(head, head, 0);
    OccursExtend(head, head, 0, total);
    OccursExtend(p1, head, 0, afterTotal);
    OccursExtend(p2, head, 0, columns);
    OccursExtend(p3, head, 0, afterColumns);
    OccursExtend(p4, head, 0, sample);
    OccursExtend(p5, head, 0, tail);
    OccursLast(head, total);
    OccursExtend(p1, total, |head|, afterTotal);
    OccursExtend(p2, total, |head|, columns);
    OccursExtend(p3, total, |head|, afterColumns);
    OccursExtend(p4, total, |head|, sample);
    OccursExtend(p5, total, |head|, tail);
    OccursLast(p1, afterTotal);
    OccursExtend(p2, afterTotal, |p1|, columns);
    OccursExtend(p3, afterTotal, |p1|, afterColumns);
    OccursExtend(p4, afterTotal, |p1|, sample);
    OccursExtend(p5, afterTotal, |p1|, tail);
    OccursLast(p2, columns);
    OccursExtend(p3, columns, |p2|, afterColumns);
    OccursExtend(p4, columns, |p2|, sample);
    OccursExtend(p5, columns, |p2|, tail);
    OccursLast(p3, afterColumns);
    OccursExtend(p4, afterColumns, |p3|, sample);
    OccursExtend(p5, afterColumns, |p3|, tail);
    OccursLast(p4, sample);
    OccursExtend(p5, sample, |p4|, tail);
    OccursLast(p5, tail);
  }

  /** The last part of a concatenation occurs right after the first. */
  lemma OccursLast(before: string, last: string)
    ensures OccursAt(before + last, last, |before|)
  {
    assert (before + last)[|before|..] == last;
  }

  /** An occurrence stays where it is when text is appended. */
  lemma OccursExtend(s: string, t: string, i: int, more: string)
    requires OccursAt(s, t, i)
    ensures OccursAt(s + more, t, i)
  {
    assert (s + more)[i..i + |t|] == s[i..i + |t|];
  }

  /** The total row count as a reader of the instruction finds it: the digits after the head. */
  function ReadTotal(instruction: string): Option<nat>
  {
    if StartsWith(instruction, InstructionHead) then
      var digits := LeadingDigits(instruction[|InstructionHead|..]);
      if digits == [] then None else Some(DigitsValue(digits))
    else None
  }

  /** However many rows there are, the sample holds at most 100 while the instruction states the full count. */
  lemma SampleBoundedTotalExact(data: SheetData, stringify: seq<Row> -> string)
    requires |data.rows| > SampleSize
    ensures |Sample(data.rows)| == SampleSize
    ensures ReadTotal(BuildInstruction(data, stringify)) == Some(|data.rows|)
  {
  }

  // ---------------------------------------------------------------------------
  // The session and sendMessageToGemini
  // ---------------------------------------------------------------------------

  /** The placeholder key the client is built with when no key is configured. */
  const MissingApiKey := "MISSING_API_KEY"
  const MissingKeyReply := "Lỗi cấu hình: Thiếu API Key. Vui lòng kiểm tra biến môi trường (VITE_API_KEY hoặc API_KEY)."
  const NotReadyReply := "Phiên chat chưa sẵn sàng. Vui lòng đợi dữ liệu tải xong."
  const NoResponseReply := "Không có phản hồi được tạo ra."
  const InvalidKeyReply := "Lỗi: API Key không hợp lệ hoặc đã hết hạn."
  const ApologyReply := "Xin lỗi, tôi gặp lỗi khi xử lý yêu cầu. Vui lòng thử lại."
  /** The text that marks a provider error as a rejected key. */
  const InvalidKeyMarker := "API key not valid"

  /** The provider client, reduced to the key it was built with. */
  datatype Client = Client(apiKey: string)

  /** A chat session: the instruction it was created with and its creation number. */
  datatype Session = Session(instruction: string, serial: nat)

  /** What the provider's `sendMessage` does: answer with a text ("" when it has none) or throw with a message. */
  datatype ProviderOutcome = Replied(text: string) | Threw(message: string)

  /** The module-level `aiClient` and `chatSession`, and a count of the sessions ever created. */
  class ChatService {
    var aiClient: Option<Client>
    var chatSession: Option<Session>
    var sessionsCreated: nat

    /** A live session exists only once the client does, and it is the most recently created one. */
    predicate Valid()
      reads this
    {
      chatSession.Some? ==> aiClient.Some? && chatSession.value.serial + 1 == sessionsCreated
    }

    /** Module load: neither a client nor a session. */
    constructor ()
      ensures aiClient == None && chatSession == None && sessionsCreated == 0
      ensures Valid()
    {
      aiClient := None;
      chatSession := None;
      sessionsCreated := 0;
    }

    /**
     * `getClient`: the client is built once, from the configured key, or from the
     * placeholder key when none is configured ("" stands for an unset variable).
     */
    method GetClient(envKey: string) returns (client: Client)
      modifies this`aiClient
      ensures aiClient == Some(client)
      ensures old(aiClient).Some? ==> client == old(aiClient).value
      ensures old(aiClient).None? ==> client == Client(if envKey == "" then MissingApiKey else envKey)
    {
      if aiClient.None? {
        var key := if envKey == "" then MissingApiKey else envKey;
        aiClient := Some(Client(key));
      }
      client := aiClient.value;
    }

    /**
     * `initializeChat`: builds the instruction from the table and replaces the session.
     * `created` says whether the provider's `chats.create` returned; when it throws, the
     * error is swallowed and the previous session, if any, stays in place.
     */
    method InitializeChat(data: SheetData, stringify: seq<Row> -> string, envKey: string, created: bool)
      requires Valid()
      modifies this
      ensures Valid()
      ensures old(aiClient).Some? ==> aiClient == old(aiClient)
      ensures old(aiClient).None? ==> aiClient == Some(Client(if envKey == "" then MissingApiKey else envKey))
      ensures created ==>
        && chatSession == Some(Session(BuildInstruction(data, stringify), old(sessionsCreated)))
        && sessionsCreated == old(sessionsCreated) + 1
      ensures !created ==> chatSession == old(chatSession) && sessionsCreated == old(sessionsCreated)
    {
      var client := GetClient(envKey);
      var instruction := BuildInstruction(data, stringify);
      if created {
        chatSession := Some(Session(instruction, sessionsCreated));
        sessionsCreated := sessionsCreated + 1;
      }
    }

    /**
     * `sendMessageToGemini`: never throws. Without a session it explains why; with one it
     * returns the reply, or a fixed text for an empty reply, a rejected key or any other failure.
     */
    method SendMessage(message: string, outcome: ProviderOutcome) returns (reply: string)
      ensures reply != ""
      ensures chatSession.None? && (aiClient.None? || aiClient.value.apiKey == MissingApiKey) ==>
        reply == MissingKeyReply
      ensures chatSession.None? && aiClient.Some? && aiClient.value.apiKey != MissingApiKey ==>
        reply == NotReadyReply
      ensures chatSession.Some? && outcome.Replied? ==>
        reply == (if outcome.text != "" then outcome.text else NoResponseReply)
      ensures chatSession.Some? && outcome.Threw? ==>
        reply == (if Contains(outcome.message, InvalidKeyMarker) then InvalidKeyReply else ApologyReply)
    {
      if chatSession.None? {
        if aiClient.None? || aiClient.value.apiKey == MissingApiKey {
          return MissingKeyReply;
        }
        return NotReadyReply;
      }
      match outcome
      case Replied(text) =>
        reply := if text != "" then text else NoResponseReply;
      case Threw(errorMessage) =>
        reply := if Contains(errorMessage, InvalidKeyMarker) then InvalidKeyReply else ApologyReply;
    }
  }
}
