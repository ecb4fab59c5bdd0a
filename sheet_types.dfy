/** The shared declarations of types.ts: the typed table and the chat turn. */
module SheetTypes {

  /**
   * A cell value as stored in a row: a string, a number or null. Google Sheets also
   * sends booleans for checkbox columns, and the row keeps whatever `v` held, so
   * booleans are a case here too. Numbers are integers in this model.
   */
  datatype Value = Null | Str(s: string) | Num(n: int) | Bool(b: bool)

  /** `SheetRow`: column label to value. A later write under the same label replaces an earlier one. */
  type Row = map<string, Value>

  /** `SheetColumn`. The source's fields `label` and `type` are `caption` and `columnType` here (both words are Dafny keywords). */
  datatype Column = Column(id: string, caption: string, columnType: string)

  /** `SheetData`. */
  datatype SheetData = SheetData(columns: seq<Column>, rows: seq<Row>)

  datatype Role = User | Model

  /** `ChatMessage`. */
  datatype ChatMessage = ChatMessage(role: Role, text: string)
}
