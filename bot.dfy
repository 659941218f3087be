/**
 * The decisions of the Telegram bot command (tickets/management/commands/bot.py): classifying an
 * inbound message, choosing its date, external client id and ticket title, logging group traffic
 * to the message stream with get-or-create of the group record, and creating a ticket from a
 * private message of an allowed user. Telegram ids appear as their decimal strings, times as
 * integer seconds; the database tables the bot reads and writes are fields of `BotStore`.
 */
module Bot {

  import opened Wrappers
  import opened Text
  import opened Entities
  import opened Statuses

  datatype Chat = Chat(id: string, kind: Option<string>, title: Option<string>, username: Option<string>)

  datatype Sender = Sender(id: string, username: Option<string>, fullName: string)

  /** The message fields the bot looks at; a media list is present when it is non-empty. */
  datatype Message = Message(
    messageId: string,
    chat: Chat,
    text: Option<string>,
    caption: Option<string>,
    hasPhoto: bool,
    hasVideo: bool,
    hasDocument: bool,
    hasAudio: bool,
    hasVoice: bool,
    hasSticker: bool,
    date: int,
    forwardDate: Option<int>,
    forwardFrom: Option<Sender>,
    forwardFromChat: Option<Chat>,
    fromUser: Option<Sender>)

  /** Python truthiness of an optional string. */
  predicate Truthy(s: Option<string>)
  {
    s.Some? && s.value != ""
  }

  /** `a or b or ''` over optional strings. */
  function OrElse(a: Option<string>, b: Option<string>): (r: string)
    ensures Truthy(a) ==> r == a.value
    ensures !Truthy(a) && Truthy(b) ==> r == b.value
    ensures !Truthy(a) && !Truthy(b) ==> r == ""
  {
    if Truthy(a) then a.value else if Truthy(b) then b.value else ""
  }

  /** A chat's display title: its title, else its username, else empty. */
  function ChatTitle(c: Chat): string
  {
    OrElse(c.title, c.username)
  }

  /** `(chat.type or '').lower() == 'private'`. */
  predicate IsPrivate(c: Chat)
  {
    Lower(c.kind.GetOr("")) == "private"
  }

  // ---------------------------------------------------------------------------
  // Classification

  datatype MediaKind = TextKind | Photo | Video | Document | Audio | Voice | Sticker | Other

  /** The `media_type` code stored in the stream. */
  function MediaCode(k: MediaKind): string
  {
    match k
    case TextKind => "text"
    case Photo => "photo"
    case Video => "video"
    case Document => "document"
    case Audio => "audio"
    case Voice => "voice"
    case Sticker => "sticker"
    case Other => "other"
  }

  /** The text the bot substitutes for a message without text. */
  function Placeholder(k: MediaKind): string
  {
    match k
    case TextKind => ""
    case Photo => "Фото"
    case Video => "Видео"
    case Document => "Файл"
    case Audio => "Аудио"
    case Voice => "Голосовое"
    case Sticker => "Стикер"
    case Other => "Другое"
  }

  /** TelegramMessage.MEDIA_TEXT_CHOICES: (stored code, label). */
  const MediaChoices: seq<(string, string)> := [
    ("text", "Текст"), ("photo", "Фото"), ("video", "Видео"), ("document", "Файл"),
    ("audio", "Аудио"), ("voice", "Голосовое"), ("sticker", "Стикер"), ("other", "Другое")]

  /** The media lists in the order the bot tests them. */
  const MediaOrder: seq<MediaKind> := [Photo, Video, Document, Audio, Voice, Sticker]

  predicate Has(m: Message, k: MediaKind)
  {
    match k
    case Photo => m.hasPhoto
    case Video => m.hasVideo
    case Document => m.hasDocument
    case Audio => m.hasAudio
    case Voice => m.hasVoice
    case Sticker => m.hasSticker
    case _ => false
  }

  /** `message.text or message.caption or ''`. */
  function MessageText(m: Message): string
  {
    OrElse(m.text, m.caption)
  }

  datatype Classified = Classified(kind: MediaKind, text: string)

  /**
   * The media type and text of an inbound message: a message with text or caption is `text` with
   * that text; otherwise the first present media list in the order photo, video, document, audio,
   * voice, sticker decides, else `other`, and the text is that type's placeholder.
   */
  function Classify(m: Message): (r: Classified)
    ensures r.kind == TextKind <==> MessageText(m) != ""
    ensures r.kind == TextKind ==> r.text == MessageText(m)
    ensures r.kind != TextKind ==> r.text == Placeholder(r.kind)
    ensures r.kind != TextKind && r.kind != Other ==> Has(m, r.kind)
    ensures r.kind != TextKind ==> forall i, j :: 0 <= i < j < |MediaOrder| && MediaOrder[j] == r.kind ==> !Has(m, MediaOrder[i])
    ensures r.kind == Other <==> MessageText(m) == "" && forall i :: 0 <= i < |MediaOrder| ==> !Has(m, MediaOrder[i])
    ensures r.text != ""
  {
    var text := MessageText(m);
    assert MediaOrder[0] == Photo && MediaOrder[1] == Video && MediaOrder[2] == Document;
    assert MediaOrder[3] == Audio && MediaOrder[4] == Voice && MediaOrder[5] == Sticker;
    if text != "" then Classified(TextKind, text)
    else if m.hasPhoto then Classified(Photo, "Фото")
    else if m.hasVideo then Classified(Video, "Видео")
    else if m.hasDocument then Classified(Document, "Файл")
    else if m.hasAudio then Classified(Audio, "Аудио")
    else if m.hasVoice then Classified(Voice, "Голосовое")
    else if m.hasSticker then Classified(Sticker, "Стикер")
    else Classified(Other, "Другое")
  }

  /** The placeholder of every non-text type is the label the stream model gives that type's code. */
  lemma PlaceholderIsChoiceLabel(k: MediaKind)
    requires k != TextKind
    ensures (MediaCode(k), Placeholder(k)) in MediaChoices
  {
    match k
    case Photo => assert MediaChoices[1] == ("photo", "Фото");
    case Video => assert MediaChoices[2] == ("video", "Видео");
    case Document => assert MediaChoices[3] == ("document", "Файл");
    case Audio => assert MediaChoices[4] == ("audio", "Аудио");
    case Voice => assert MediaChoices[5] == ("voice", "Голосовое");
    case Sticker => assert MediaChoices[6] == ("sticker", "Стикер");
    case Other => assert MediaChoices[7] == ("other", "Другое");
  }

  /** The ticket date: the forward date when present, else the message date. */
  function OriginalDate(m: Message): (r: int)
    ensures m.forwardDate.Some? ==> r == m.forwardDate.value
    ensures m.forwardDate.None? ==> r == m.date
  {
    m.forwardDate.GetOr(m.date)
  }

  /** The external client id: the forwarded-from user's id, else the forwarded-from chat's id, else none. */
  function ExternalId(m: Message): (r: Option<string>)
    ensures m.forwardFrom.Some? ==> r == Some(m.forwardFrom.value.id)
    ensures m.forwardFrom.None? && m.forwardFromChat.Some? ==> r == Some(m.forwardFromChat.value.id)
    ensures r.None? <==> m.forwardFrom.None? && m.forwardFromChat.None?
  {
    if m.forwardFrom.Some? then Some(m.forwardFrom.value.id)
    else if m.forwardFromChat.Some? then Some(m.forwardFromChat.value.id)
    else None
  }

  const DefaultTitle: string := "Сообщение из Telegram"
  const GroupTitlePrefix: string := "Создано из группы "

  /** The title of the chat a message was forwarded from, or empty. */
  function ForwardedGroupTitle(m: Message): string
  {
    if m.forwardFromChat.Some? then ChatTitle(m.forwardFromChat.value) else ""
  }

  /**
   * The ticket title: "Создано из группы X" when forwarded from a chat with title or username X;
   * otherwise the first 100 characters of the text, or the default title for an empty text.
   */
  function Title(text: string, m: Message): (r: string)
    ensures ForwardedGroupTitle(m) != "" ==> r == GroupTitlePrefix + ForwardedGroupTitle(m)
    ensures ForwardedGroupTitle(m) == "" && text != "" ==> r == Prefix(text, 100) && 0 < |r| <= 100
    ensures ForwardedGroupTitle(m) == "" && text == "" ==> r == DefaultTitle
    ensures r != ""
  {
    var title := if text != "" then Prefix(text, 100) else DefaultTitle;
    var groupTitle := ForwardedGroupTitle(m);
    if groupTitle != "" then GroupTitlePrefix + groupTitle else title
  }

  /**
   * The text handed to ticket creation is never empty, so the default title is never chosen for
   * a classified message and the title is never empty.
   */
  lemma ClassifiedTitle(m: Message)
    ensures ForwardedGroupTitle(m) == "" ==> Title(Classify(m).text, m) == Prefix(Classify(m).text, 100)
    ensures Title(Classify(m).text, m) != ""
  {
  }

  // ---------------------------------------------------------------------------
  // Database selections made by the bot

  /** `.filter(p).first()` over a table kept in its query order. */
  function FirstWhere<T>(s: seq<T>, p: T -> bool): (r: Option<T>)
    ensures r.None? <==> forall k :: 0 <= k < |s| ==> !p(s[k])
    ensures r.Some? ==> exists k :: 0 <= k < |s| && s[k] == r.value && p(s[k]) && forall j :: 0 <= j < k ==> !p(s[j])
    ensures forall k :: (0 <= k < |s| && p(s[k]) && forall j :: 0 <= j < k ==> !p(s[j])) ==> r == Some(s[k])
  {
    if s == [] then None
    else if p(s[0]) then Some(s[0])
    else
      var rest := FirstWhere(s[1..], p);
      assert rest.Some? ==> exists k :: 0 <= k < |s| && s[k] == rest.value && p(s[k]) && forall j :: 0 <= j < k ==> !p(s[j]) by {
        if rest.Some? {
          var k :| 0 <= k < |s[1..]| && s[1..][k] == rest.value && p(s[1..][k]) && forall j :: 0 <= j < k ==> !p(s[1..][j]);
          assert s[k + 1] == rest.value;
          assert forall j :: 0 <= j < k + 1 ==> !p(s[j]) by {
            forall j | 0 <= j < k + 1
              ensures !p(s[j])
            {
              if j > 0 {
                assert s[j] == s[1..][j - 1];
              }
            }
          }
        }
      }
      assert forall k :: (0 <= k < |s| && p(s[k]) && forall j :: 0 <= j < k ==> !p(s[j])) ==> rest == Some(s[k]) by {
        forall k | 0 <= k < |s| && p(s[k]) && forall j :: 0 <= j < k ==> !p(s[j])
          ensures rest == Some(s[k])
        {
          assert s[1..][k - 1] == s[k];
          assert forall j :: 0 <= j < k - 1 ==> s[1..][j] == s[j + 1];
        }
      }
      rest
  }

  /** A bot access row: a Telegram account allowed (or not) to use the bot as a system user. */
  datatype Access = Access(telegramUserId: string, isAllowed: bool, user: User)

  /** A Telegram group or channel record, keyed by chat id. */
  datatype TelegramGroup = TelegramGroup(chatId: string, title: string, isBlocked: bool, writeToStream: bool)

  /** One row of the message stream. */
  datatype StreamEntry = StreamEntry(
    messageId: string, chatId: string, chatTitle: string,
    fromUserId: string, fromUsername: string, fromFullname: string,
    text: string, mediaType: string, date: int)

  const SupplierCategory: string := "Обращения от поставщиков"
  const UnknownClient: string := "Неизвестный клиент"
  const NormalPriority: string := "normal"

  /** An access row that lets the Telegram account `telegramId` act as its user. */
  predicate AllowedAccess(a: Access, telegramId: string)
  {
    a.telegramUserId == telegramId && a.isAllowed
  }

  /**
   * The ticket creator: the user of the first allowed access with that Telegram id, else the
   * first staff user, else the first user.
   */
  function Creator(accesses: seq<Access>, users: seq<User>, telegramId: string): (r: Option<User>)
    ensures r.None? <==> users == [] && forall k :: 0 <= k < |accesses| ==> !AllowedAccess(accesses[k], telegramId)
    ensures forall k ::
              (0 <= k < |accesses| && AllowedAccess(accesses[k], telegramId)
               && forall j :: 0 <= j < k ==> !AllowedAccess(accesses[j], telegramId)) ==> r == Some(accesses[k].user)
    ensures (forall k :: 0 <= k < |accesses| ==> !AllowedAccess(accesses[k], telegramId)) ==>
              forall k :: (0 <= k < |users| && users[k].isStaff && forall j :: 0 <= j < k ==> !users[j].isStaff) ==>
                r == Some(users[k])
    ensures ((forall k :: 0 <= k < |accesses| ==> !AllowedAccess(accesses[k], telegramId))
             && (forall k :: 0 <= k < |users| ==> !users[k].isStaff) && users != []) ==> r == Some(users[0])
  {
    var access := FirstWhere(accesses, (a: Access) => AllowedAccess(a, telegramId));
    if access.Some? then Some(access.value.user)
    else
      var staff := FirstWhere(users, (u: User) => u.isStaff);
      if staff.Some? then staff
      else if users != [] then Some(users[0]) else None
  }

  /** A top-level category whose name contains "Обращения от поставщиков", ignoring case. */
  predicate IsSupplier(c: Category)
  {
    c.parent.None? && Contains(Lower(c.name), Lower(SupplierCategory))
  }

  /** The ticket category: the first supplier category, else the first category. */
  function TicketCategory(categories: seq<Category>): (r: Option<Category>)
    ensures r.None? <==> categories == []
    ensures r.Some? ==> r.value in categories
    ensures forall k ::
              (0 <= k < |categories| && IsSupplier(categories[k])
               && forall j :: 0 <= j < k ==> !IsSupplier(categories[j])) ==> r == Some(categories[k])
    ensures (forall k :: 0 <= k < |categories| ==> !IsSupplier(categories[k])) && categories != [] ==>
              r == Some(categories[0])
  {
    var supplier := FirstWhere(categories, IsSupplier);
    if supplier.Some? then supplier
    else if categories != [] then Some(categories[0]) else None
  }

  /** The ticket status: the first non-final status, else the first status. */
  function NewStatus(statuses: seq<TicketStatus>): (r: Option<TicketStatus>)
    ensures r.None? <==> statuses == []
    ensures r.Some? ==> r.value in statuses
    ensures First(statuses, NonFinal).Some? ==> r == First(statuses, NonFinal)
    ensures First(statuses, NonFinal).None? && statuses != [] ==> r == Some(statuses[0])
  {
    var open := First(statuses, NonFinal);
    if open.Some? then open else if statuses != [] then Some(statuses[0]) else None
  }

  /** Which client the bot files a ticket under, and whether it has to create it. */
  datatype ClientPick = Existing(client: Client) | CreateUnknown(client: Client)

  /** A client the message's (non-empty) external id names. */
  predicate KnownBy(c: Client, ext: Option<string>)
  {
    Truthy(ext) && c.externalId == ext.value
  }

  /**
   * The client: the first one with the message's external id, else the first existing
   * "Неизвестный клиент", else a new "Неизвестный клиент" with the next id.
   */
  function PickClient(clients: seq<Client>, ext: Option<string>, nextId: nat): (r: ClientPick)
    ensures r.Existing? ==> r.client in clients
    ensures forall k ::
              (0 <= k < |clients| && KnownBy(clients[k], ext)
               && forall j :: 0 <= j < k ==> !KnownBy(clients[j], ext)) ==> r == Existing(clients[k])
    ensures (forall k :: 0 <= k < |clients| ==> !KnownBy(clients[k], ext)) ==>
              forall k ::
                (0 <= k < |clients| && clients[k].name == UnknownClient
                 && forall j :: 0 <= j < k ==> clients[j].name != UnknownClient) ==> r == Existing(clients[k])
    ensures r.CreateUnknown? <==>
      (forall k :: 0 <= k < |clients| ==> clients[k].name != UnknownClient)
      && (forall k :: 0 <= k < |clients| ==> !KnownBy(clients[k], ext))
    ensures r.CreateUnknown? ==> r.client == Client(nextId, UnknownClient, None, "")
  {
    var byExternal := if Truthy(ext) then FirstWhere(clients, (c: Client) => KnownBy(c, ext)) else None;
    if byExternal.Some? then Existing(byExternal.value)
    else
      var unknown := FirstWhere(clients, (c: Client) => c.name == UnknownClient);
      if unknown.Some? then Existing(unknown.value)
      else CreateUnknown(Client(nextId, UnknownClient, None, ""))
  }

  /** Once the bot has created the shared unknown client, no later message creates another one. */
  lemma UnknownClientCreatedOnce(clients: seq<Client>, ext: Option<string>, nextId: nat, later: Option<string>, laterId: nat)
    requires PickClient(clients, ext, nextId).CreateUnknown?
    ensures PickClient(clients + [PickClient(clients, ext, nextId).client], later, laterId).Existing?
  {
    var grown := clients + [PickClient(clients, ext, nextId).client];
    assert grown[|clients|].name == UnknownClient;
  }

  /** The group record after the bot sees a message from a non-private chat (get-or-create, then title refresh). */
  function UpsertGroup(groups: map<string, TelegramGroup>, c: Chat): (r: map<string, TelegramGroup>)
    ensures r.Keys == groups.Keys + {c.id}
    ensures forall k :: k in groups && k != c.id ==> r[k] == groups[k]
    ensures c.id !in groups ==> r[c.id] == TelegramGroup(c.id, ChatTitle(c), false, true)
    ensures c.id in groups ==> r[c.id] == groups[c.id].(title := r[c.id].title)
    ensures c.id in groups && ChatTitle(c) != "" ==> r[c.id].title == ChatTitle(c)
    ensures c.id in groups && ChatTitle(c) == "" ==> r[c.id].title == groups[c.id].title
  {
    var title := ChatTitle(c);
    if c.id !in groups then groups[c.id := TelegramGroup(c.id, title, false, true)]
    else
      var grp := groups[c.id];
      if title != "" && grp.title != title then groups[c.id := grp.(title := title)] else groups
  }

  /** Seeing the same chat again changes nothing: the upsert is idempotent. */
  lemma UpsertGroupIdempotent(groups: map<string, TelegramGroup>, c: Chat)
    ensures UpsertGroup(UpsertGroup(groups, c), c) == UpsertGroup(groups, c)
  {
  }

  /** A new ticket from the bot; the title falls back as in the source when the override is empty. */
  function BotTicket(id: nat, title: string, text: string, category: Category, client: Client,
                     status: TicketStatus, creator: User, createdAt: int,
                     messageId: string, chatId: string, chatTitle: string): Ticket
  {
    Ticket(id, if title != "" then title else if text != "" then Prefix(text, 100) else DefaultTitle,
           text, category, client.id, None, NormalPriority, status, None, createdAt, None, None, None,
           "", "", messageId, chatId, chatTitle, "", creator)
  }

  /** Every ticket of `t` is filed under a client of the table. */
  ghost predicate AllFiled(clients: seq<Client>, t: map<nat, Ticket>)
  {
    forall k :: k in t ==> exists i :: 0 <= i < |clients| && clients[i].id == t[k].client
  }

  /** Adding clients keeps every ticket filed. */
  lemma FiledTicketsStayFiled(before: seq<Client>, after: seq<Client>, t: map<nat, Ticket>)
    requires before <= after
    requires AllFiled(before, t)
    ensures AllFiled(after, t)
  {
    forall k | k in t
      ensures exists i :: 0 <= i < |after| && after[i].id == t[k].client
    {
      var i :| 0 <= i < |before| && before[i].id == t[k].client;
      assert after[i] == before[i];
    }
  }

  /** Filing one more ticket under a client of the table keeps every ticket filed. */
  lemma FilingKeepsFiled(clients: seq<Client>, t: map<nat, Ticket>, id: nat, ticket: Ticket)
    requires AllFiled(clients, t)
    requires ticket.client in set c | c in clients :: c.id
    ensures AllFiled(clients, t[id := ticket])
  {
  }

  /**
   * The store's invariant: groups are stored under their chat id; client ids are below
   * `nextClientId`; every ticket is stored under its own id, below `nextTicketId`, and is filed
   * under an existing client.
   */
  ghost predicate StoreInvariant(groups: map<string, TelegramGroup>, clients: seq<Client>, nextClientId: nat,
                                 tickets: map<nat, Ticket>, nextTicketId: nat)
  {
    && (forall k :: k in groups ==> groups[k].chatId == k)
    && (forall i :: 0 <= i < |clients| ==> clients[i].id < nextClientId)
    && (forall k :: k in tickets ==> tickets[k].id == k && k < nextTicketId)
    && AllFiled(clients, tickets)
  }

  /**
   * Filing a ticket under the picked client, with the next ticket id, keeps the invariant; the
   * unknown client, when it has to be created, takes the next client id.
   */
  lemma FilingKeepsInvariant(groups: map<string, TelegramGroup>, clients: seq<Client>, nextClientId: nat,
                             tickets: map<nat, Ticket>, nextTicketId: nat, pick: ClientPick, ticket: Ticket)
    requires StoreInvariant(groups, clients, nextClientId, tickets, nextTicketId)
    requires pick.Existing? ==> pick.client in clients
    requires pick.CreateUnknown? ==> pick.client.id == nextClientId
    requires ticket.id == nextTicketId && ticket.client == pick.client.id
    ensures nextTicketId !in tickets
    ensures StoreInvariant(groups, if pick.CreateUnknown? then clients + [pick.client] else clients,
                           if pick.CreateUnknown? then nextClientId + 1 else nextClientId,
                           tickets[nextTicketId := ticket], nextTicketId + 1)
  {
    var after := if pick.CreateUnknown? then clients + [pick.client] else clients;
    FiledTicketsStayFiled(clients, after, tickets);
    var i :| 0 <= i < |after| && after[i] == pick.client;
    FilingKeepsFiled(after, tickets, nextTicketId, ticket);
  }

  /** The stream row `_log_message_sync` writes for a message: the sender's fields are empty without a sender. */
  function StreamRow(m: Message, text: string, kind: MediaKind): StreamEntry
  {
    StreamEntry(
      m.messageId, m.chat.id, ChatTitle(m.chat),
      if m.fromUser.Some? then m.fromUser.value.id else "",
      if m.fromUser.Some? then m.fromUser.value.username.GetOr("") else "",
      if m.fromUser.Some? then m.fromUser.value.fullName else "",
      text, MediaCode(kind), m.date)
  }

  class BotStore {
    const accesses: seq<Access>
    const users: seq<User>
    const categories: seq<Category>
    const statuses: seq<TicketStatus>
    var clients: seq<Client>
    var groups: map<string, TelegramGroup>
    var stream: seq<StreamEntry>
    var tickets: map<nat, Ticket>
    var nextTicketId: nat
    var nextClientId: nat

    /**
     * Groups are stored under their chat id; client ids are below `nextClientId`; every ticket is
     * stored under its own id, below `nextTicketId`, and is filed under an existing client.
     */
    ghost predicate Valid()
      reads this
    {
      StoreInvariant(groups, clients, nextClientId, tickets, nextTicketId)
    }

    constructor(accesses: seq<Access>, users: seq<User>, categories: seq<Category>,
                statuses: seq<TicketStatus>, clients: seq<Client>)
      ensures Valid()
      ensures this.accesses == accesses && this.users == users && this.categories == categories
      ensures this.statuses == statuses && this.clients == clients
      ensures groups == map[] && stream == [] && tickets == map[] && nextTicketId == 1
    {
      this.accesses := accesses;
      this.users := users;
      this.categories := categories;
      this.statuses := statuses;
      this.clients := clients;
      groups := map[];
      stream := [];
      tickets := map[];
      nextTicketId := 1;
      var top: nat := 0;
      var i := 0;
      while i < |clients|
        invariant 0 <= i <= |clients|
        invariant forall j :: 0 <= j < i ==> clients[j].id < top
      {
        if clients[i].id >= top {
          top := clients[i].id + 1;
        }
        i := i + 1;
      }
      nextClientId := top;
    }

    /** `_is_allowed_user`: an access row with that Telegram id allows the bot. */
    predicate IsAllowed(telegramId: string)
    {
      exists k :: 0 <= k < |accesses| && accesses[k].telegramUserId == telegramId && accesses[k].isAllowed
    }

    /**
     * `_should_log_to_stream`: never for a private chat; otherwise the group record is fetched or
     * created (unblocked, writing to the stream), its title refreshed, and the answer is "not
     * blocked and writing to the stream".
     */
    method ShouldLogToStream(c: Chat) returns (log: bool)
      requires Valid()
      modifies this
      ensures Valid()
      ensures clients == old(clients) && stream == old(stream) && tickets == old(tickets)
      ensures nextTicketId == old(nextTicketId) && nextClientId == old(nextClientId)
      ensures IsPrivate(c) ==> !log && groups == old(groups)
      ensures !IsPrivate(c) ==> groups == UpsertGroup(old(groups), c)
      ensures !IsPrivate(c) ==> log == (!groups[c.id].isBlocked && groups[c.id].writeToStream)
      ensures !IsPrivate(c) && c.id !in old(groups) ==> log
    {
      if Lower(c.kind.GetOr("")) == "private" {
        return false;
      }
      var title := ChatTitle(c);
      var grp: TelegramGroup;
      var created: bool;
      if c.id in groups {
        grp, created := groups[c.id], false;
      } else {
        grp, created := TelegramGroup(c.id, title, false, true), true;
        groups := groups[c.id := grp];
      }
      if !created && title != "" && grp.title != title {
        grp := grp.(title := title);
        groups := groups[c.id := grp];
      }
      log := !grp.isBlocked && grp.writeToStream;
    }

    /** `_log_message_sync`: appends one stream row for the message. */
    method LogMessage(m: Message, text: string, kind: MediaKind)
      requires Valid()
      modifies this
      ensures Valid()
      ensures stream == old(stream) + [StreamRow(m, text, kind)]
      ensures clients == old(clients) && groups == old(groups) && tickets == old(tickets)
      ensures nextTicketId == old(nextTicketId) && nextClientId == old(nextClientId)
    {
      var from := m.fromUser;
      var entry := StreamEntry(
        m.messageId, m.chat.id, ChatTitle(m.chat),
        if from.Some? then from.value.id else "",
        if from.Some? then from.value.username.GetOr("") else "",
        if from.Some? then from.value.fullName else "",
        text, MediaCode(kind), m.date);
      stream := stream + [entry];
    }

    /**
     * `_create_ticket_sync`, one transaction: with no creator, category or status the ticket
     * cannot be saved and the transaction leaves everything as it was; otherwise the client is
     * picked (creating the shared unknown client at most once) and the ticket saved under the
     * next id.
     */
    method CreateTicketSync(authorId: string, text: string, ext: Option<string>, createdAt: int,
                            messageId: string, chatId: string, chatTitle: string, title: string)
      returns (r: Option<nat>)
      requires Valid()
      modifies this
      ensures Valid()
      ensures groups == old(groups) && stream == old(stream)
      ensures r.None? <==>
        Creator(accesses, users, authorId).None? || TicketCategory(categories).None? || NewStatus(statuses).None?
      ensures r.None? ==>
        clients == old(clients) && tickets == old(tickets)
        && nextTicketId == old(nextTicketId) && nextClientId == old(nextClientId)
      ensures r.Some? ==>
        var pick := PickClient(old(clients), ext, old(nextClientId));
        && r.value == old(nextTicketId) && nextTicketId == old(nextTicketId) + 1
        && r.value !in old(tickets)
        && clients == (if pick.CreateUnknown? then old(clients) + [pick.client] else old(clients))
        && nextClientId == (if pick.CreateUnknown? then old(nextClientId) + 1 else old(nextClientId))
        && tickets == old(tickets)[r.value := BotTicket(
             r.value, title, text, TicketCategory(categories).value, pick.client,
             NewStatus(statuses).value, Creator(accesses, users, authorId).value, createdAt,
             messageId, chatId, chatTitle)]
    {
      var creator := Creator(accesses, users, authorId);
      var category := TicketCategory(categories);
      var status := NewStatus(statuses);
      if creator.None? || category.None? || status.None? {
        return None;
      }
      var pick := PickClient(clients, ext, nextClientId);
      var id := FileTicket(pick, category.value, status.value, creator.value, title, text, createdAt,
                           messageId, chatId, chatTitle);
      r := Some(id);
    }

    /**
     * The saving half of `_create_ticket_sync`: the picked client is added when it has to be
     * created, and the ticket is saved under the next id, which is returned.
     */
    method FileTicket(pick: ClientPick, category: Category, status: TicketStatus, creator: User,
                      title: string, text: string, createdAt: int,
                      messageId: string, chatId: string, chatTitle: string)
      returns (id: nat)
      requires Valid()
      requires pick.Existing? ==> pick.client in clients
      requires pick.CreateUnknown? ==> pick.client.id == nextClientId
      modifies this
      ensures Valid()
      ensures groups == old(groups) && stream == old(stream)
      ensures id == old(nextTicketId) && nextTicketId == old(nextTicketId) + 1 && id !in old(tickets)
      ensures clients == (if pick.CreateUnknown? then old(clients) + [pick.client] else old(clients))
      ensures nextClientId == (if pick.CreateUnknown? then old(nextClientId) + 1 else old(nextClientId))
      ensures tickets == old(tickets)[id := BotTicket(id, title, text, category, pick.client, status,
                                                      creator, createdAt, messageId, chatId, chatTitle)]
    {
      var ticket := BotTicket(nextTicketId, title, text, category, pick.client, status,
                              creator, createdAt, messageId, chatId, chatTitle);
      FilingKeepsInvariant(groups, clients, nextClientId, tickets, nextTicketId, pick, ticket);
      if pick.CreateUnknown? {
        clients := clients + [pick.client];
        nextClientId := nextClientId + 1;
      }
      tickets := tickets[nextTicketId := ticket];
      id := nextTicketId;
      nextTicketId := nextTicketId + 1;
    }

    /**
     * `on_message`: group traffic is logged when its group allows it; a ticket is created only
     * for a private message from an allowed sender, titled and dated as the decisions above say.
     * A message is never both logged and turned into a ticket.
     */
    method OnMessage(message: Option<Message>, user: Sender) returns (created: Option<nat>)
      requires Valid()
      modifies this
      ensures Valid()
      ensures message.None? ==>
        created.None? && groups == old(groups) && stream == old(stream) && tickets == old(tickets) && clients == old(clients)
      ensures message.Some? && !IsPrivate(message.value.chat) ==> created.None? && tickets == old(tickets)
      ensures message.Some? && IsPrivate(message.value.chat) ==> stream == old(stream) && groups == old(groups)
      ensures message.Some? && IsPrivate(message.value.chat) && !IsAllowed(user.id) ==>
        created.None? && tickets == old(tickets) && clients == old(clients)
      ensures message.Some? && !IsPrivate(message.value.chat) ==>
        var m := message.value;
        && groups == UpsertGroup(old(groups), m.chat)
        && stream == old(stream) +
             (if !groups[m.chat.id].isBlocked && groups[m.chat.id].writeToStream
              then [StreamRow(m, Classify(m).text, Classify(m).kind)] else [])
      ensures message.Some? && !IsPrivate(message.value.chat) ==>
        clients == old(clients) && nextClientId == old(nextClientId) && nextTicketId == old(nextTicketId)
      ensures created.None? ==>
        tickets == old(tickets) && clients == old(clients)
        && nextTicketId == old(nextTicketId) && nextClientId == old(nextClientId)
      ensures created.Some? ==> nextTicketId == old(nextTicketId) + 1
      ensures message.Some? && IsPrivate(message.value.chat) && IsAllowed(user.id) ==>
        (created.None? <==>
          Creator(accesses, users, user.id).None? || TicketCategory(categories).None? || NewStatus(statuses).None?)
      ensures created.Some? ==>
        var m := message.value;
        var pick := PickClient(old(clients), ExternalId(m), old(nextClientId));
        && IsPrivate(m.chat) && IsAllowed(user.id)
        && created.value == old(nextTicketId) && created.value !in old(tickets)
        && clients == (if pick.CreateUnknown? then old(clients) + [pick.client] else old(clients))
        && tickets == old(tickets)[created.value := BotTicket(
             created.value, Title(Classify(m).text, m), Classify(m).text, TicketCategory(categories).value,
             pick.client, NewStatus(statuses).value, Creator(accesses, users, user.id).value, OriginalDate(m),
             m.messageId, m.chat.id, ChatTitle(m.chat))]
    {
      if message.None? {
        return None;
      }
      var m := message.value;
      var c := Classify(m);
      var createdAt := OriginalDate(m);
      var ext := ExternalId(m);
      var private := Lower(m.chat.kind.GetOr("")) == "private";
      var shouldLog := ShouldLogToStream(m.chat);
      if shouldLog {
        LogMessage(m, c.text, c.kind);
      }
      if !private {
        return None;
      }
      if !IsAllowed(user.id) {
        return None;
      }
      var title := Title(c.text, m);
      ClassifiedTitle(m);
      created := CreateTicketSync(user.id, c.text, ext, createdAt, m.messageId, m.chat.id, ChatTitle(m.chat), title);
    }
  }
}
