/**
 * The attribute panel: a two-column key/value table whose rows are
 * replaced wholesale by each attributes message
 * (internal/ui/components/attributespane/attribute/attribute.go).
 */
module AttributePanel {
  import opened Messages

  /** A table row: the attribute's key and value. */
  type Row = (string, string)

  /** The table an attribute list is shown as: one row per attribute, in order. */
  function RowsOf(attributes: seq<Attribute>): (rows: seq<Row>)
    ensures |rows| == |attributes|
  {
    seq(|attributes|, i requires 0 <= i < |attributes| => (attributes[i].key, attributes[i].value))
  }

  /** Reads the attribute list back from the table. */
  function AttributesOf(rows: seq<Row>): (attributes: seq<Attribute>)
    ensures |attributes| == |rows|
  {
    seq(|rows|, i requires 0 <= i < |rows| => Attribute(rows[i].0, rows[i].1))
  }

  /** The table keeps every key and value, in order: reading it back gives the message's list. */
  lemma RowsRoundTrip(attributes: seq<Attribute>)
    ensures AttributesOf(RowsOf(attributes)) == attributes
  {
  }

  /** How the panel reacts to a message: the new rows and the (always empty) commands. */
  function Next(rows: seq<Row>, msg: Msg): (seq<Row>, multiset<Cmd>) {
    match msg
    case AttributesMsg(attributes) => (RowsOf(attributes), multiset{})
    case _ => (rows, multiset{})
  }

  /** AttributesCmd: the command whose message carries exactly `attributes`. */
  function AttributesCmd(attributes: seq<Attribute>): Cmd {
    PushAttributes(attributes)
  }

  /** AttributesInitCmd: the command whose message carries no attributes. */
  function AttributesInitCmd(): Cmd {
    PushAttributes([])
  }

  class Model {
    var rows: seq<Row>

    constructor ()
      ensures rows == []
    {
      rows := [];
    }

    /** Init: the command that empties the table once its message is handled. */
    method Init() returns (cmds: multiset<Cmd>)
      ensures cmds == multiset{PushAttributes([])}
    {
      cmds := multiset{AttributesInitCmd()};
    }

    method Update(msg: Msg) returns (cmds: multiset<Cmd>)
      modifies this
      ensures (rows, cmds) == Next(old(rows), msg)
    {
      cmds := multiset{};
      match msg {
        case AttributesMsg(attributes) =>
          var newRows: seq<Row> := [];
          var i := 0;
          while i < |attributes|
            invariant 0 <= i <= |attributes|
            invariant |newRows| == i
            invariant forall j :: 0 <= j < i ==> newRows[j] == (attributes[j].key, attributes[j].value)
          {
            newRows := newRows + [(attributes[i].key, attributes[i].value)];
            i := i + 1;
          }
          assert newRows == RowsOf(attributes);
          rows := newRows;
        case _ =>
      }
    }
  }

  /**
   * An attributes message clears the old rows and installs one row per
   * attribute, in message order: row count equals the message length.
   */
  lemma AttributesMessageReplacesRows(rows: seq<Row>, attributes: seq<Attribute>)
    ensures |Next(rows, AttributesMsg(attributes)).0| == |attributes|
    ensures forall i :: 0 <= i < |attributes| ==>
      Next(rows, AttributesMsg(attributes)).0[i] == (attributes[i].key, attributes[i].value)
  {
  }

  /** Any other message leaves the rows alone. */
  lemma OtherMessagesKeepRows(rows: seq<Row>, msg: Msg)
    requires !msg.AttributesMsg?
    ensures Next(rows, msg) == (rows, multiset{})
  {
  }
}
