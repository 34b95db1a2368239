/**
 * The status bar: the tenant name and a replaceable message
 * (internal/ui/components/statusbar/status_bar.go).
 */
module StatusBar {
  import opened Messages

  /** How the status bar reacts to a message: the new text and the commands (never any). */
  function Next(message: string, msg: Msg): (string, multiset<Cmd>) {
    match msg
    case StatusMsg(m) => (m, multiset{})
    case _ => (message, multiset{})
  }

  /** StatusMessageCmd: the command whose message is StatusMsg(message). */
  function StatusMessageCmd(message: string): Cmd {
    PushStatus(message)
  }

  /**
   * The width left for the message: the bar's width less the horizontal
   * frames of the bar, the tenant cell and the message cell, less the
   * tenant's length. It can be negative.
   */
  function MessageBudget(areaWidth: int, areaFrame: int, tenantFrame: int, messageFrame: int, tenant: string): (budget: int)
    ensures budget + areaFrame + tenantFrame + messageFrame + |tenant| == areaWidth
  {
    areaWidth - areaFrame - tenantFrame - messageFrame - |tenant|
  }

  /** Go's uint(width) on a 64-bit int: two's complement reinterpretation. */
  function AsUint64(width: int): (u: nat)
    requires -0x8000_0000_0000_0000 <= width < 0x8000_0000_0000_0000
    ensures width >= 0 ==> u == width
    ensures width < 0 ==> u >= 0x8000_0000_0000_0000
    ensures u < 0x1_0000_0000_0000_0000 && (u - width) % 0x1_0000_0000_0000_0000 == 0
  {
    if width >= 0 then width else width + 0x1_0000_0000_0000_0000
  }

  /** With the default styles (a 154-column bar, one column of padding on each side of both cells) 150 columns are shared with the tenant. */
  lemma DefaultBudget(tenant: string)
    ensures MessageBudget(154, 0, 2, 2, tenant) == 150 - |tenant|
  {
  }

  class Model {
    var tenant: string
    var message: string

    /** New: the tenant name and, as the first message, the tenant's web UI URL. */
    constructor (tenantName: string, webUIURL: string)
      ensures tenant == tenantName && message == webUIURL
    {
      tenant := tenantName;
      message := webUIURL;
    }

    method Init() returns (cmds: multiset<Cmd>)
      ensures cmds == multiset{}
    {
      cmds := multiset{};
    }

    /** A status message replaces the message; nothing changes the tenant; no command is returned. */
    method Update(msg: Msg) returns (cmds: multiset<Cmd>)
      modifies this
      ensures tenant == old(tenant)
      ensures (message, cmds) == Next(old(message), msg)
    {
      match msg {
        case StatusMsg(m) => message := m;
        case _ =>
      }
      cmds := multiset{};
    }
  }

  /** Only a status message changes the text, and the handler never returns a command. */
  lemma OnlyStatusMessagesChangeText(message: string, msg: Msg)
    ensures Next(message, msg).1 == multiset{}
    ensures !msg.StatusMsg? ==> Next(message, msg).0 == message
    ensures msg.StatusMsg? ==> Next(message, msg).0 == msg.message
  {
  }
}
