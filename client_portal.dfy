/** The client portal with local state (components/client-portal.tsx): its
    `sendMessage` handler, which appends the typed message to the selected
    project's thread and clears the input. */
module ClientPortal {
  import opened Common

  datatype SenderType = FromClient | FromTeam

  datatype Message = Message(
    id: string,
    sender: string,
    senderType: SenderType,
    content: string,
    timestamp: string,
    attachments: Option<seq<string>>)

  datatype FileType = Design | Document | Asset | Deliverable

  datatype ProjectFile = ProjectFile(
    id: string,
    name: string,
    kind: FileType,
    size: string,
    uploadedBy: string,
    uploadedAt: string,
    url: string)

  datatype InvoiceStatus = Pending | Paid | Overdue

  datatype Invoice = Invoice(
    id: string,
    number: string,
    amount: string,
    status: InvoiceStatus,
    dueDate: string,
    description: string)

  datatype Milestone = Milestone(name: string, completed: bool, dueDate: string)

  datatype Stage = Discovery | Planning | Design | Development | QA | Launch | Complete

  datatype ClientProject = ClientProject(
    id: string,
    name: string,
    status: Stage,
    progress: int,
    startDate: string,
    dueDate: string,
    budget: string,
    description: string,
    messages: seq<Message>,
    files: seq<ProjectFile>,
    invoices: seq<Invoice>,
    milestones: seq<Milestone>)

  /** The sender every message from this screen carries. */
  const ClientName := "Sarah Johnson"

  // ------------------------------------------------------------------ trim

  /** The characters `String.prototype.trim` removes: the ECMAScript
      WhiteSpace and LineTerminator characters. */
  predicate IsSpace(c: char) {
    c == '\t' || c == '\n' || c == '\U{000B}' || c == '\U{000C}' || c == '\r' || c == ' ' ||
    c == '\U{00A0}' || c == '\U{1680}' || ('\U{2000}' <= c <= '\U{200A}') ||
    c == '\U{2028}' || c == '\U{2029}' || c == '\U{202F}' || c == '\U{205F}' ||
    c == '\U{3000}' || c == '\U{FEFF}'
  }

  /** Every character of `s` is white space (vacuously so for ""). */
  predicate IsBlank(s: string) {
    forall i :: 0 <= i < |s| ==> IsSpace(s[i])
  }

  /** `s` without its leading white space. */
  function TrimStart(s: string): (r: string)
    ensures |r| <= |s|
    ensures r == s[|s| - |r|..]
    ensures r != [] ==> !IsSpace(r[0])
    ensures IsBlank(s[..|s| - |r|])
    ensures r == [] <==> IsBlank(s)
  {
    if s != [] && IsSpace(s[0]) then
      var r := TrimStart(s[1..]);
      assert s[1..][..|s[1..]| - |r|] == s[1..|s| - |r|];
      r
    else
      s
  }

  /** `s` without its trailing white space. */
  function TrimEnd(s: string): (r: string)
    ensures |r| <= |s|
    ensures r == s[..|r|]
    ensures r != [] ==> !IsSpace(r[|r| - 1])
    ensures IsBlank(s[|r|..])
    ensures r == [] <==> IsBlank(s)
  {
    if s != [] && IsSpace(s[|s| - 1]) then
      var r := TrimEnd(s[..|s| - 1]);
      assert s[|r|..] == s[..|s| - 1][|r|..] + [s[|s| - 1]];
      assert s == s[..|s| - 1] + [s[|s| - 1]];
      r
    else
      s
  }

  /** `r` is the part of `s` starting at `i`, with only white space before
      and after it. */
  predicate TrimmedAt(s: string, r: string, i: int) {
    0 <= i && i + |r| <= |s| && r == s[i..i + |r|] && IsBlank(s[..i]) && IsBlank(s[i + |r|..])
  }

  /** `s.trim()`: the middle of `s` between blank ends, with no white space
      left at either end, and "" exactly for the blank strings. */
  function Trim(s: string): (r: string)
    ensures exists i :: TrimmedAt(s, r, i)
    ensures r != [] ==> !IsSpace(r[0]) && !IsSpace(r[|r| - 1])
    ensures r == [] <==> IsBlank(s)
  {
    var t := TrimStart(s);
    TrimBothEnds(s, t, TrimEnd(t));
    TrimBlank(s, t, TrimEnd(t));
    TrimEnd(t)
  }

  /** Trimming the front and then the back leaves the middle of `s`. */
  lemma TrimBothEnds(s: string, t: string, r: string)
    requires |t| <= |s| && t == s[|s| - |t|..] && IsBlank(s[..|s| - |t|])
    requires |r| <= |t| && r == t[..|r|] && IsBlank(t[|r|..])
    ensures TrimmedAt(s, r, |s| - |t|)
  {
    var i := |s| - |t|;
    assert s[i..i + |r|] == t[..|r|];
    assert s[i + |r|..] == t[|r|..];
  }

  /** Nothing is left of `s` after both trims exactly when `s` is blank,
      and what is left starts with a character that is not white space. */
  lemma TrimBlank(s: string, t: string, r: string)
    requires t == TrimStart(s) && r == TrimEnd(t)
    ensures r != [] ==> !IsSpace(r[0])
    ensures r == [] <==> IsBlank(s)
  {
    if r != [] {
      assert r[0] == t[0];
    }
    if t != [] {
      assert !IsSpace(t[0]);
    }
  }

  // --------------------------------------------------------------- the state

  class Screen {
    var projects: seq<ClientProject>
    var selectedProject: ClientProject
    var newMessage: string

    /** The screen as it opens: the first project selected, an empty input. */
    constructor (projects: seq<ClientProject>)
      requires projects != []
      ensures this.projects == projects && selectedProject == projects[0] && newMessage == ""
    {
      this.projects := projects;
      selectedProject := projects[0];
      newMessage := "";
    }

    /** The text typed into the message box. */
    method Type(text: string)
      modifies this`newMessage
      ensures newMessage == text
    {
      newMessage := text;
    }

    /** `sendMessage`, with the id and the timestamp, which the source derives
        from the clock, passed in. A blank input changes nothing. Otherwise
        the input, untrimmed, is appended to the selected project's thread as
        a message from the client and the input is cleared. The project list
        is not touched. */
    method SendMessage(id: string, timestamp: string)
      modifies this`selectedProject, this`newMessage
      ensures IsBlank(old(newMessage)) ==>
        selectedProject == old(selectedProject) && newMessage == old(newMessage)
      ensures !IsBlank(old(newMessage)) ==>
        && selectedProject == old(selectedProject).(messages := selectedProject.messages)
        && selectedProject.messages
           == old(selectedProject.messages) + [Message(id, ClientName, FromClient, old(newMessage), timestamp, None)]
        && newMessage == ""
      ensures projects == old(projects)
    {
      if Trim(newMessage) == "" {
        return;
      }
      var message := Message(id, ClientName, FromClient, newMessage, timestamp, None);
      selectedProject := selectedProject.(messages := selectedProject.messages + [message]);
      newMessage := "";
    }
  }
}
