/** The project page: ticket colour helpers, the three-column Kanban grouping
    and its drag guards, toasts, the comment thread of the open ticket, and the
    keyboard navigation of the @mention dropdown. */
module ProjectDetail {
  import opened Js
  import opened Seqs
  import opened Names

  /** The Kanban columns of this page, in order. 'In Review' is not one. */
  const StatusOptions: seq<string> := ["Open", "In Progress", "Closed"]

  // ---------------------------------------------------------------------------
  // Colour classes

  function StatusColorClass(status: string): string
  {
    if status == "Open" then "border-blue-500 bg-blue-50"
    else if status == "In Progress" then "border-yellow-400 bg-yellow-50"
    else if status == "In Review" then "border-purple-400 bg-purple-50"
    else if status == "Closed" then "border-green-500 bg-green-50"
    else "border-gray-300 bg-white"
  }

  function PriorityBadgeClass(priority: string): string
  {
    if priority == "High" then "bg-red-500 text-white"
    else if priority == "Medium" then "bg-yellow-400 text-white"
    else "bg-blue-500 text-white"
  }

  function StatusBadgeClass(status: string): string
  {
    if status == "Open" then "bg-blue-500 text-white"
    else if status == "In Progress" then "bg-yellow-400 text-white"
    else if status == "In Review" then "bg-purple-500 text-white"
    else "bg-green-500 text-white"
  }

  /** Which inputs fall through to each helper's last branch: every priority
      other than High and Medium is blue, every status other than the three
      active ones gets the green badge (so 'Closed' and an unknown status look
      alike), and only the four known statuses get a coloured border. */
  lemma ColourFallbacks(s: string)
    ensures PriorityBadgeClass(s) == "bg-blue-500 text-white" <==> s != "High" && s != "Medium"
    ensures StatusBadgeClass(s) == "bg-green-500 text-white" <==> s !in {"Open", "In Progress", "In Review"}
    ensures StatusColorClass(s) == "border-gray-300 bg-white" <==> s !in {"Open", "In Progress", "In Review", "Closed"}
  {
  }

  // ---------------------------------------------------------------------------
  // Initials

  /** An assignee; a missing name or email is the empty string. */
  datatype User = User(name: string, email: string)

  /** `assigneeInitials`: 'U' without a user; the name's initials (the same as
      `getInitials`) when there is a name; otherwise the upper-cased first
      character of the email; otherwise 'U'. */
  function AssigneeInitials(user: Option<User>): (r: string)
    ensures user.None? ==> r == "U"
    ensures user.Some? && user.value.name != "" ==> r == ShortInitials(user.value.name)
    ensures user.Some? && user.value.name == "" && user.value.email != "" ==> r == [UpperChar(user.value.email[0])]
    ensures user.Some? && user.value.name == "" && user.value.email == "" ==> r == "U"
    ensures |r| <= 2
  {
    match user
    case None => "U"
    case Some(u) =>
      if u.name != "" then Slice(Upper(FirstLetters(u.name)), 2)
      else if u.email != "" then Upper([u.email[0]])
      else "U"
  }

  // ---------------------------------------------------------------------------
  // Kanban grouping and drag guards

  datatype Ticket = Ticket(id: string, title: string, status: string)

  function HasStatus(option: string): Ticket -> bool
  {
    (t: Ticket) => t.status == option
  }

  /** `groupedTickets`: one list per status option. */
  function GroupedTickets(tickets: seq<Ticket>): map<string, seq<Ticket>>
  {
    map option | option in StatusOptions :: Filter(tickets, HasStatus(option))
  }

  /** Each column holds exactly the tickets with its status, in list order;
      a ticket whose status is not an option is in no column. */
  lemma GroupedSpec(tickets: seq<Ticket>)
    ensures GroupedTickets(tickets).Keys == {"Open", "In Progress", "Closed"}
    ensures forall option, t :: option in GroupedTickets(tickets) ==>
      (t in GroupedTickets(tickets)[option] <==> t in tickets && t.status == option)
    ensures forall option :: option in GroupedTickets(tickets) ==> IsSubseq(GroupedTickets(tickets)[option], tickets)
    ensures forall t: Ticket, option :: t.status !in StatusOptions && option in GroupedTickets(tickets) ==> t !in GroupedTickets(tickets)[option]
  {
    var g := GroupedTickets(tickets);
    forall option | option in g
      ensures IsSubseq(g[option], tickets) && forall t :: t in g[option] <==> t in tickets && t.status == option
    {
      FilterSpec(tickets, HasStatus(option));
    }
  }

  /** `tickets.find(t => t._id === id)` */
  function FindTicket(tickets: seq<Ticket>, id: string): (r: Option<Ticket>)
    ensures r.None? <==> forall i :: 0 <= i < |tickets| ==> tickets[i].id != id
    ensures r.Some? ==> r.value in tickets && r.value.id == id
  {
    if tickets == [] then None
    else if tickets[0].id == id then Some(tickets[0])
    else FindTicket(tickets[1..], id)
  }

  /** The guards of `handleDragEnd`: the ticket body it sends (the ticket with
      the droppable's id as its status), or None when it returns early. */
  function DragRequest(tickets: seq<Ticket>, activeId: string, over: Option<string>): (r: Option<Ticket>)
    ensures r.None? <==>
      || over.None?
      || activeId == over.value
      || (forall i :: 0 <= i < |tickets| ==> tickets[i].id != activeId)
      || FindTicket(tickets, activeId).value.status == over.value
    ensures r.Some? ==>
      && r.value.id == activeId && r.value.status == over.value
      && r.value == FindTicket(tickets, activeId).value.(status := over.value)
  {
    if over.None? || activeId == over.value then None
    else match FindTicket(tickets, activeId)
      case None => None
      case Some(ticket) => if ticket.status == over.value then None else Some(ticket.(status := over.value))
  }

  /** How the status request of a drag settled. */
  datatype PutOutcome = PutResolved | PutThrew

  /** The toast the drag handler shows, as written: once the request resolves
      it calls `fetchTickets`, a function that exists only inside the effect
      that loads the tickets, so the call throws a ReferenceError and the
      handler's catch reports a failure. */
  function DragToastAsWritten(outcome: PutOutcome): (r: (string, string))
    ensures r == ("Failed to move ticket", "error")
  {
    match outcome
    case PutResolved => ("Failed to move ticket", "error")
    case PutThrew => ("Failed to move ticket", "error")
  }

  /** As written, a move the server accepted is still reported as a failure. */
  lemma AcceptedMoveReportedAsFailure()
    ensures DragToastAsWritten(PutResolved).1 == "error"
  {
  }

  /** The toast the drag handler evidently means to show: success once the
      request resolves, failure when it throws. */
  function DragToast(outcome: PutOutcome): (r: (string, string))
    ensures r.1 == "success" <==> outcome.PutResolved?
    ensures r.1 == "error" <==> outcome.PutThrew?
  {
    match outcome
    case PutResolved => ("Ticket moved!", "success")
    case PutThrew => ("Failed to move ticket", "error")
  }

  // ---------------------------------------------------------------------------
  // Toasts

  /** A toast; `id` is the caller's timestamp plus a random fraction, taken
      here as a parameter. */
  datatype Toast = Toast(id: int, message: string, kind: string, duration: int)

  function NotToast(id: int): Toast -> bool
  {
    (t: Toast) => t.id != id
  }

  /** `ts.filter(t => t.id !== id)` */
  function WithoutToast(ts: seq<Toast>, id: int): seq<Toast>
  {
    Filter(ts, NotToast(id))
  }

  /** Removing a toast keeps the other toasts in order and removes every toast
      with that id; removing a freshly added toast restores the list. */
  lemma RemoveToastSpec(ts: seq<Toast>, t: Toast)
    ensures IsSubseq(WithoutToast(ts, t.id), ts)
    ensures forall x :: x in WithoutToast(ts, t.id) <==> x in ts && x.id != t.id
    ensures (forall i :: 0 <= i < |ts| ==> ts[i].id != t.id) ==> WithoutToast(ts + [t], t.id) == ts
  {
    FilterSpec(ts, NotToast(t.id));
    if forall i :: 0 <= i < |ts| ==> ts[i].id != t.id {
      FilterSnoc(ts, t, NotToast(t.id));
      FilterAll(ts, NotToast(t.id));
    }
  }

  // ---------------------------------------------------------------------------
  // Comments

  datatype Comment = Comment(id: string, text: string, author: string)

  /** `cs.map(c => c._id === id ? { ...c, text } : c)` */
  function EditText(cs: seq<Comment>, id: string, text: string): (r: seq<Comment>)
    ensures |r| == |cs|
    ensures forall i :: 0 <= i < |cs| ==> r[i] == if cs[i].id == id then cs[i].(text := text) else cs[i]
  {
    if cs == [] then [] else [if cs[0].id == id then cs[0].(text := text) else cs[0]] + EditText(cs[1..], id, text)
  }

  /** `cs.map(c => c._id === comment._id ? comment : c)` */
  function Replace(cs: seq<Comment>, comment: Comment): (r: seq<Comment>)
    ensures |r| == |cs|
    ensures forall i :: 0 <= i < |cs| ==> r[i] == if cs[i].id == comment.id then comment else cs[i]
  {
    if cs == [] then [] else [if cs[0].id == comment.id then comment else cs[0]] + Replace(cs[1..], comment)
  }

  function NotComment(id: string): Comment -> bool
  {
    (c: Comment) => c.id != id
  }

  /** `cs.filter(c => c._id !== id)` */
  function DeleteComment(cs: seq<Comment>, id: string): seq<Comment>
  {
    Filter(cs, NotComment(id))
  }

  /** An edit changes no id and no author, and deleting the comment afterwards
      leaves the same thread as deleting it straight away. */
  lemma {:induction false} EditThenDelete(cs: seq<Comment>, id: string, text: string)
    ensures forall i :: 0 <= i < |cs| ==> EditText(cs, id, text)[i].id == cs[i].id && EditText(cs, id, text)[i].author == cs[i].author
    ensures DeleteComment(EditText(cs, id, text), id) == DeleteComment(cs, id)
  {
    if cs != [] {
      EditThenDelete(cs[1..], id, text);
      assert EditText(cs, id, text)[1..] == EditText(cs[1..], id, text);
    }
  }

  /** Deleting a comment removes exactly the comments with that id and keeps
      the rest in order. */
  lemma DeleteCommentSpec(cs: seq<Comment>, id: string)
    ensures IsSubseq(DeleteComment(cs, id), cs)
    ensures forall c :: c in DeleteComment(cs, id) <==> c in cs && c.id != id
  {
    FilterSpec(cs, NotComment(id));
  }

  /** How a comment request ended: an ok reply with its body, a reply that is
      not ok with the `message` of its body if it has one, or an exception
      (the network, a body that is not JSON) with its message. */
  datatype Reply<T> = Ok(data: T) | NotOk(message: Option<string>) | Threw(error: string)

  /** The message the `catch` of a comment handler receives for a request that
      failed: `data.message || fallback` for a reply that is not ok. */
  function Failure<T>(reply: Reply<T>, fallback: string): (r: string)
    requires !reply.Ok?
    ensures reply.NotOk? && reply.message.Some? && reply.message.value != "" ==> r == reply.message.value
    ensures reply.NotOk? && (reply.message.None? || reply.message.value == "") ==> r == fallback
    ensures fallback != "" && reply.NotOk? ==> r != ""
    ensures reply.Threw? ==> r == reply.error
  {
    match reply
    case NotOk(m) => Or(m, fallback)
    case Threw(e) => e
  }

  /** The comment error `handleAddComment` leaves behind, as written: after an
      ok reply it calls `fetchActivityLogs`, which the page never declares, so
      the guard `fetchActivityLogs && ...` itself throws a ReferenceError and
      the `catch` shows its message. The wording of that message depends on
      the JavaScript engine; the one here is V8's, and the proofs below only
      use that it is not empty. */
  function AddCommentErrorAsWritten(reply: Reply<Comment>): (r: string)
    ensures r == "" ==> reply.Threw?
    ensures !reply.Ok? ==> r == Failure(reply, "Failed to add comment")
  {
    match reply
    case Ok(_) => "fetchActivityLogs is not defined"
    case _ => Failure(reply, "Failed to add comment")
  }

  /** The comment error the handler evidently means to leave: none after an
      ok reply, the failure's message otherwise. */
  function AddCommentError(reply: Reply<Comment>): (r: string)
    ensures reply.Ok? ==> r == ""
    ensures !reply.Ok? ==> r == Failure(reply, "Failed to add comment")
    ensures reply.NotOk? ==> r != ""
    ensures reply.Threw? ==> r == reply.error
  {
    match reply
    case Ok(_) => ""
    case _ => Failure(reply, "Failed to add comment")
  }

  /** As written, every comment the server accepts is reported as an error,
      and that is the only reply on which the two versions differ. */
  lemma AddedCommentReportedAsError(reply: Reply<Comment>)
    ensures reply.Ok? ==> AddCommentErrorAsWritten(reply) != "" && AddCommentError(reply) == ""
    ensures AddCommentErrorAsWritten(reply) == AddCommentError(reply) <==> !reply.Ok?
  {
  }

  // ---------------------------------------------------------------------------
  // Mention dropdown

  /** A JavaScript number as the dropdown index holds it: an integer, or NaN
      after `% 0`. */
  datatype Index = At(i: int) | NaN

  datatype Mention = Mention(open: bool, options: seq<User>, index: Index, query: string)

  const MentionClosed: Mention := Mention(false, [], At(0), "")

  /** JavaScript's `a % n`: NaN for a zero divisor, otherwise the remainder
      with the sign of `a`. */
  function JsRem(a: int, n: int): (r: Index)
    ensures n == 0 <==> r.NaN?
    ensures n > 0 && a >= 0 ==> r == At(a % n)
  {
    if n == 0 then NaN
    else if a >= 0 then At(a % (if n < 0 then -n else n))
    else At(-((-a) % (if n < 0 then -n else n)))
  }

  /** ArrowDown: `(index + 1) % n`. */
  function Down(i: Index, n: nat): Index
  {
    match i
    case NaN => NaN
    case At(k) => JsRem(k + 1, n)
  }

  /** ArrowUp: `(index - 1 + n) % n`. */
  function Up(i: Index, n: nat): Index
  {
    match i
    case NaN => NaN
    case At(k) => JsRem(k - 1 + n, n)
  }

  lemma ModSmall(a: int, n: int)
    requires 0 <= a < n
    ensures a % n == a
  {
  }

  lemma ModSelf(n: int)
    requires 0 < n
    ensures n % n == 0
  {
  }

  /** ArrowDown moves to the next option and wraps from the last to the first. */
  lemma DownStep(k: int, n: nat)
    requires 0 <= k < n
    ensures Down(At(k), n) == At(if k == n - 1 then 0 else k + 1)
  {
    if k == n - 1 {
      ModSelf(n);
    } else {
      ModSmall(k + 1, n);
    }
  }

  /** ArrowUp moves to the previous option and wraps from the first to the last. */
  lemma UpStep(k: int, n: nat)
    requires 0 <= k < n
    ensures Up(At(k), n) == At(if k == 0 then n - 1 else k - 1)
  {
    if k == 0 {
      ModSmall(n - 1, n);
    } else {
      assert k - 1 + n == (k - 1) + n;
      ModShift(k - 1, n);
    }
  }

  lemma ModShift(a: int, n: int)
    requires 0 <= a < n
    ensures (a + n) % n == a
  {
  }

  /** On a non-empty list both keys keep the index in range and each undoes
      the other. */
  lemma MentionCycle(k: int, n: nat)
    requires 0 <= k < n
    ensures Down(At(k), n) == At(if k == n - 1 then 0 else k + 1)
    ensures Up(At(k), n) == At(if k == 0 then n - 1 else k - 1)
    ensures Up(Down(At(k), n), n) == At(k) && Down(Up(At(k), n), n) == At(k)
  {
    DownStep(k, n);
    UpStep(k, n);
    DownStep(if k == 0 then n - 1 else k - 1, n);
    UpStep(if k == n - 1 then 0 else k + 1, n);
  }

  /** On an empty list either key turns the index into NaN, for good. */
  lemma MentionEmpty(i: Index)
    ensures Down(i, 0) == NaN && Up(i, 0) == NaN
  {
  }

  /** The index is a position in the options, or, with no options, 0 or NaN. */
  ghost predicate MentionValid(m: Mention)
  {
    match m.index
    case NaN => m.options == []
    case At(k) => 0 <= k && (m.options != [] ==> k < |m.options|)
  }

  function MemberLabel(u: User): string
  {
    if u.name != "" then u.name else u.email
  }

  function Matches(query: string): User -> bool
  {
    (u: User) => Includes(Lower(MemberLabel(u)), query)
  }

  // ---------------------------------------------------------------------------
  // The page state

  class Page {
    var tickets: seq<Ticket>
    var toasts: seq<Toast>
    var comments: seq<Comment>
    var mention: Mention
    var kanbanLoading: bool
    var commentError: string

    constructor()
      ensures tickets == [] && toasts == [] && comments == [] && mention == MentionClosed && !kanbanLoading
      ensures commentError == ""
    {
      tickets := [];
      toasts := [];
      comments := [];
      mention := MentionClosed;
      kanbanLoading := false;
      commentError := "";
    }

    /** `addToast`: appends a toast at the end. */
    method AddToast(message: string, kind: string, duration: int, stamp: int)
      modifies this
      ensures toasts == old(toasts) + [Toast(stamp, message, kind, duration)]
      ensures tickets == old(tickets) && comments == old(comments) && mention == old(mention)
      ensures kanbanLoading == old(kanbanLoading) && commentError == old(commentError)
    {
      toasts := toasts + [Toast(stamp, message, kind, duration)];
    }

    /** `removeToast`: drops every toast with the id. */
    method RemoveToast(id: int)
      modifies this
      ensures toasts == WithoutToast(old(toasts), id)
      ensures tickets == old(tickets) && comments == old(comments) && mention == old(mention)
      ensures kanbanLoading == old(kanbanLoading) && commentError == old(commentError)
    {
      toasts := WithoutToast(toasts, id);
    }

    /** `handleDragEnd` with the toast it evidently means to show; the ticket
        list itself is only changed by the reload that follows, which is not
        part of this model. */
    method DragEnd(activeId: string, over: Option<string>, outcome: PutOutcome, stamp: int)
      returns (request: Option<Ticket>)
      modifies this
      ensures request == DragRequest(old(tickets), activeId, over)
      ensures request.None? ==> toasts == old(toasts) && kanbanLoading == old(kanbanLoading)
      ensures request.Some? ==>
        toasts == old(toasts) + [Toast(stamp, DragToast(outcome).0, DragToast(outcome).1, 3500)] && !kanbanLoading
      ensures tickets == old(tickets) && comments == old(comments) && mention == old(mention)
      ensures commentError == old(commentError)
    {
      request := DragRequest(tickets, activeId, over);
      if request.None? {
        return;
      }
      kanbanLoading := true;
      var toast := DragToast(outcome);
      AddToast(toast.0, toast.1, 3500, stamp);
      kanbanLoading := false;
    }

    /** `handleAddComment` for the typed `text`: a blank text sends nothing;
        otherwise an ok reply appends the comment the server returned, and the
        comment error is the one the handler evidently means to leave. */
    method AddComment(text: string, reply: Reply<Comment>)
      modifies this
      ensures Trim(text) == "" ==> comments == old(comments) && commentError == ""
      ensures Trim(text) != "" && reply.Ok? ==> comments == old(comments) + [reply.data]
      ensures Trim(text) != "" && !reply.Ok? ==> comments == old(comments)
      ensures Trim(text) != "" ==> commentError == AddCommentError(reply)
      ensures tickets == old(tickets) && toasts == old(toasts) && mention == old(mention)
      ensures kanbanLoading == old(kanbanLoading)
    {
      commentError := "";
      if Trim(text) == "" {
        return;
      }
      if reply.Ok? {
        comments := comments + [reply.data];
      }
      commentError := AddCommentError(reply);
    }

    /** `handleEditCommentSave`: an ok reply gives the comment the edited text
        and shows a success toast; a failed request leaves the comments alone
        and shows its message as an error toast. */
    method EditComment(id: string, text: string, reply: Reply<()>, stamp: int)
      modifies this
      ensures reply.Ok? ==> comments == EditText(old(comments), id, text)
      ensures reply.Ok? ==> toasts == old(toasts) + [Toast(stamp, "Comment updated!", "success", 3500)]
      ensures !reply.Ok? ==> comments == old(comments)
      ensures !reply.Ok? ==>
        toasts == old(toasts) + [Toast(stamp, Failure(reply, "Failed to update comment"), "error", 3500)]
      ensures tickets == old(tickets) && mention == old(mention)
      ensures kanbanLoading == old(kanbanLoading) && commentError == old(commentError)
    {
      if reply.Ok? {
        comments := EditText(comments, id, text);
        AddToast("Comment updated!", "success", 3500, stamp);
      } else {
        AddToast(Failure(reply, "Failed to update comment"), "error", 3500, stamp);
      }
    }

    /** `handleDeleteComment`: an ok reply removes the comment and shows a
        success toast; a reply that is not ok shows a fixed message (its body
        is not read) and an exception its own, both as error toasts. */
    method RemoveComment(id: string, reply: Reply<()>, stamp: int)
      modifies this
      ensures reply.Ok? ==> comments == DeleteComment(old(comments), id)
      ensures reply.Ok? ==> toasts == old(toasts) + [Toast(stamp, "Comment deleted!", "success", 3500)]
      ensures !reply.Ok? ==> comments == old(comments)
      ensures reply.NotOk? ==> toasts == old(toasts) + [Toast(stamp, "Failed to delete comment", "error", 3500)]
      ensures reply.Threw? ==> toasts == old(toasts) + [Toast(stamp, reply.error, "error", 3500)]
      ensures tickets == old(tickets) && mention == old(mention)
      ensures kanbanLoading == old(kanbanLoading) && commentError == old(commentError)
    {
      if reply.Ok? {
        comments := DeleteComment(comments, id);
        AddToast("Comment deleted!", "success", 3500, stamp);
      } else if reply.NotOk? {
        AddToast("Failed to delete comment", "error", 3500, stamp);
      } else {
        AddToast(reply.error, "error", 3500, stamp);
      }
    }

    /** The socket's comment events, applied only when they concern the open
        ticket (`openTicket`, None when no ticket is open). */
    method CommentEvent(openTicket: Option<string>, bugId: string, event: CommentEventKind)
      modifies this
      ensures openTicket != Some(bugId) ==> comments == old(comments)
      ensures openTicket == Some(bugId) ==> comments == match event
        case Added(c) => old(comments) + [c]
        case Updated(c) => Replace(old(comments), c)
        case Deleted(id) => DeleteComment(old(comments), id)
      ensures tickets == old(tickets) && toasts == old(toasts) && mention == old(mention)
      ensures kanbanLoading == old(kanbanLoading) && commentError == old(commentError)
    {
      if openTicket.Some? && openTicket.value == bugId {
        match event
        case Added(c) => comments := comments + [c];
        case Updated(c) => comments := Replace(comments, c);
        case Deleted(id) => comments := DeleteComment(comments, id);
      }
    }

    /** `handleCommentInput`: `query` is what the `@word` before the cursor
        captured (None without a match) and `members` the project's members
        (None when the project or its member list is missing). */
    method CommentInput(query: Option<string>, members: Option<seq<User>>)
      modifies this
      ensures query.Some? && members.Some? ==>
        mention == Mention(true, Filter(members.value, Matches(Lower(query.value))), At(0), Lower(query.value))
      ensures query.None? || members.None? ==> mention == MentionClosed
      ensures MentionValid(mention)
      ensures tickets == old(tickets) && toasts == old(toasts) && comments == old(comments)
      ensures kanbanLoading == old(kanbanLoading) && commentError == old(commentError)
    {
      if query.Some? && members.Some? {
        var q := Lower(query.value);
        mention := Mention(true, Filter(members.value, Matches(q)), At(0), q);
      } else {
        mention := MentionClosed;
      }
    }

    /** `handleMentionKeyDown`, returning the member that Enter picks. */
    method MentionKeyDown(key: string) returns (selected: Option<User>)
      requires MentionValid(mention)
      modifies this
      ensures MentionValid(mention)
      ensures !old(mention).open ==> mention == old(mention) && selected.None?
      ensures old(mention).open && key == "ArrowDown" ==>
        mention == old(mention).(index := Down(old(mention).index, |old(mention).options|))
      ensures old(mention).open && key == "ArrowUp" ==>
        mention == old(mention).(index := Up(old(mention).index, |old(mention).options|))
      ensures selected.Some? <==> old(mention).open && key == "Enter" && old(mention).options != []
      ensures selected.Some? ==> mention == MentionClosed
      ensures selected.Some? ==>
        && old(mention).index.At? && old(mention).index.i < |old(mention).options|
        && selected.value == old(mention).options[old(mention).index.i]
      ensures old(mention).open && key == "Escape" ==> mention == MentionClosed
      ensures old(mention).open && key == "Enter" && old(mention).options == [] ==> mention == old(mention)
      ensures old(mention).open && key !in {"ArrowDown", "ArrowUp", "Enter", "Escape"} ==>
        mention == old(mention) && selected.None?
      ensures tickets == old(tickets) && toasts == old(toasts) && comments == old(comments)
      ensures kanbanLoading == old(kanbanLoading) && commentError == old(commentError)
    {
      selected := None;
      if !mention.open {
        return;
      }
      var n := |mention.options|;
      if key == "ArrowDown" {
        if mention.index.At? && n > 0 {
          MentionCycle(mention.index.i, n);
        }
        mention := mention.(index := Down(mention.index, n));
      } else if key == "ArrowUp" {
        if mention.index.At? && n > 0 {
          MentionCycle(mention.index.i, n);
        }
        mention := mention.(index := Up(mention.index, n));
      } else if key == "Enter" && n > 0 {
        selected := Some(mention.options[mention.index.i]);
        mention := MentionClosed;
      } else if key == "Escape" {
        mention := MentionClosed;
      }
    }
  }

  datatype CommentEventKind = Added(comment: Comment) | Updated(comment: Comment) | Deleted(commentId: string)
}
