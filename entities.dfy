/**
 * The helpdesk's records (tickets/models.py) as plain values, and the small
 * rendering helpers the models define on them: `Category.__str__`,
 * `Category.is_parent` / `is_child` and `TicketComment.get_author_name`.
 * Timestamps are integer seconds; foreign keys to users, statuses and
 * categories hold the referenced record, those to clients and organizations
 * hold the row id.
 */
module Entities {

  import opened Wrappers
  import opened Text

  /** The fields of django.contrib.auth's User that the helpdesk reads. */
  datatype User = User(id: nat, username: string, firstName: string, lastName: string, isStaff: bool)

  /** `User.get_full_name()`: first and last name joined by a space, then stripped. */
  function FullName(u: User): string
  {
    Strip(u.firstName + " " + u.lastName)
  }

  /** `user.get_full_name() or user.username`. */
  function DisplayName(u: User): (r: string)
    ensures FullName(u) != "" ==> r == FullName(u)
    ensures FullName(u) == "" ==> r == u.username
    ensures r == "" ==> u.username == ""
  {
    var full := FullName(u);
    if full != "" then full else u.username
  }

  /** A support category; categories form a two-level tree through `parent`. */
  datatype Category = Category(id: nat, name: string, parent: Option<Category>, slaHours: nat)

  /** An organization (legal entity) a client belongs to. */
  datatype Organization = Organization(id: nat, name: string)

  /** A client (supplier); `organization` is the organization's row id. */
  datatype Client = Client(id: nat, name: string, organization: Option<nat>, externalId: string)

  /** A ticket status: ordered by `order` then `name`, flagged working and/or final. */
  datatype TicketStatus = TicketStatus(id: nat, name: string, isWorking: bool, isFinal: bool, order: nat)

  /** A ticket row. `client` and `organization` are row ids; `createdAt`, `takenAt`, ... are seconds. */
  datatype Ticket = Ticket(
    id: nat,
    title: string,
    description: string,
    category: Category,
    client: nat,
    organization: Option<nat>,
    priority: string,
    status: TicketStatus,
    assignedTo: Option<User>,
    createdAt: int,
    takenAt: Option<int>,
    resolvedAt: Option<int>,
    closedAt: Option<int>,
    resolution: string,
    resolutionNotes: string,
    externalMessageId: string,
    telegramChatId: string,
    telegramChatTitle: string,
    tags: string,
    createdBy: User)

  /** TicketAudit.ACTION_CHOICES. */
  datatype AuditAction = Created | StatusChanged | Assigned | Taken | ReturnedToWork | Resolved | Updated | CommentAdded

  /** One row of the append-only audit log; `user` is the acting user's id. */
  datatype Audit = Audit(ticket: nat, action: AuditAction, user: nat, oldValue: string, newValue: string, comment: string)

  /** A ticket comment's author fields: a system user or a client, chosen by `authorType`. */
  datatype Comment = Comment(authorType: string, author: Option<User>, authorClient: Option<Client>, content: string)

  const Arrow: string := " → "
  const UnknownAuthor: string := "Неизвестный автор"

  /**
   * `Category.__str__`: the category's own name, preceded by "<parent> → " when it has a parent.
   * The label always ends with the own name, and is longer than it exactly when there is a parent.
   */
  function CategoryLabel(c: Category): (r: string)
    ensures |r| >= |c.name| && r[|r| - |c.name|..] == c.name
    ensures c.parent.Some? <==> |r| > |c.name|
    ensures c.parent.Some? ==>
      var p := c.parent.value.name;
      && |r| == |p| + |Arrow| + |c.name|
      && r[..|p|] == p
      && r[|p|..|p| + |Arrow|] == Arrow
  {
    match c.parent
    case Some(p) => p.name + Arrow + c.name
    case None => c.name
  }

  /** `Category.is_parent`: a top-level category. */
  predicate IsParent(c: Category)
  {
    c.parent.None?
  }

  /** `Category.is_child`: a second-level category; always the negation of `IsParent`. */
  function IsChild(c: Category): (r: bool)
    ensures r == !IsParent(c)
  {
    c.parent != None
  }

  /**
   * `TicketComment.get_author_name`: the client's name for a client comment that has a client,
   * the user's display name for a user comment that has a user, and "Неизвестный автор" otherwise.
   */
  function AuthorName(c: Comment): (r: string)
    ensures c.authorType == "client" && c.authorClient.Some? ==> r == c.authorClient.value.name
    ensures c.authorType == "user" && c.author.Some? ==> r == DisplayName(c.author.value)
    ensures !(c.authorType == "client" && c.authorClient.Some?) && !(c.authorType == "user" && c.author.Some?)
            ==> r == UnknownAuthor
  {
    if c.authorType == "client" && c.authorClient.Some? then c.authorClient.value.name
    else if c.authorType == "user" && c.author.Some? then DisplayName(c.author.value)
    else UnknownAuthor
  }

  /** A user comment never shows the linked client's name, and a client comment never the user's. */
  lemma AuthorKindDecides(c: Comment, client: Client, user: User)
    ensures AuthorName(c.(authorType := "user", author := Some(user), authorClient := Some(client))) == DisplayName(user)
    ensures AuthorName(c.(authorType := "client", author := Some(user), authorClient := Some(client))) == client.name
  {
  }
}
