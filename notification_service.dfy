/** `NotificationService`: in-app notifications, saved first and then, for
    the budget alert and the weekly summary, followed by a best-effort e-mail.
    The e-mail side (the budget lookup and the mail server) is an input: the
    flag `mailed` says whether those calls completed without an exception. */
module NotificationService {
  import opened Common
  import opened Tables
  import opened AccountDomain
  import Formatting
  import UserService
  import Repo = LedgerEntryRepository

  datatype NotificationType = BUDGET_ALERT | BUDGET_EXCEEDED | WEEKLY_SUMMARY | MONTHLY_REPORT

  /** The `data` map of a budget notification: "budgetId" and
      "usagePercentage". */
  datatype AlertData = AlertData(budgetId: Id, usagePercentage: real)

  datatype Notification = Notification(
    userId: Id,
    familyId: Option<Id>,
    notificationType: NotificationType,
    title: string,
    message: string,
    data: Option<AlertData>,
    isRead: bool,
    emailSent: bool,
    createdAt: Instant)

  /** `new Notification()` followed by the setters of one service method:
      unread, no e-mail sent yet, created `now`. */
  function NewNotification(userId: Id, familyId: Option<Id>, t: NotificationType, title: string, message: string,
                           data: Option<AlertData>, now: Instant): (n: Notification)
    ensures !n.isRead && !n.emailSent && n.createdAt == now
    ensures n.userId == userId && n.familyId == familyId && n.notificationType == t && n.data == data
  {
    Notification(userId, familyId, t, title, message, data, false, false, now)
  }

  /** Java's `(int)` cast of a double: toward zero, saturating at the `int`
      range. */
  function IntCast(x: real): (n: int)
    ensures -0x8000_0000 <= n <= 0x7fff_ffff
    ensures -0x8000_0000 as real <= x <= 0x7fff_ffff as real ==> (n as real) <= x < (n + 1) as real || (n - 1) as real < x <= n as real
    ensures x >= 0.0 ==> n >= 0
  {
    if x >= 0x7fff_ffff as real then 0x7fff_ffff
    else if x <= -0x8000_0000 as real then -0x8000_0000
    else if x >= 0.0 then x.Floor
    else -((-x).Floor)
  }

  function IntText(n: int): string {
    (if n < 0 then "-" else "") + Formatting.NatText(Formatting.Abs(n))
  }

  function AlertTitle(): string { "Bütçe Uyarısı" }
  function ExceededTitle(): string { "Bütçe Aşıldı!" }
  function SummaryTitle(): string { "Haftalık Özet" }
  function SummaryMessage(): string { "Bu haftaki harcama özetiniz hazır" }

  function AlertMessage(usagePercentage: real): string {
    "Bütçenizin %" + IntText(IntCast(usagePercentage)) + "'ını kullandınız"
  }

  function ExceededMessage(usagePercentage: real): string {
    "Bütçenizi %" + IntText(IntCast(usagePercentage)) + " oranında aştınız"
  }

  /** Save a new notification and, when the e-mail step completes, save it
      again with `emailSent` set: the common shape of `createBudgetAlert` and
      `createWeeklySummary`. */
  function SaveThenMail(users: seq<Row<User>>, rows: seq<Row<Notification>>, userId: Id, n: Notification,
                        mailed: bool): (r: seq<Row<Notification>>)
    requires !n.emailSent
    ensures |r| == |rows| + 1 && r[..|rows|] == rows && r[|rows|].id == FreshId(rows)
    ensures r[|rows|].val == n.(emailSent := UserService.FindUser(users, userId).Ok? && mailed)
  {
    var id := FreshId(rows);
    var saved := rows + [Row(id, n)];
    if UserService.FindUser(users, userId).Ok? && mailed then
      UpsertAppended(rows, id, n, n.(emailSent := true));
      Upsert(saved, id, n.(emailSent := true))
    else saved
  }

  /** `createBudgetAlert`: the new notification list, or "User not found". */
  function CreateBudgetAlertEffect(users: seq<Row<User>>, rows: seq<Row<Notification>>, userId: Id, budgetId: Id,
                                   usagePercentage: real, mailed: bool, now: Instant): (out: (Result<()>, seq<Row<Notification>>))
    ensures out.0.Err? <==> !HasId(users, userId)
    ensures out.0.Err? ==> out.1 == rows && out.0.message == "User not found"
  {
    match UserService.CurrentFamilyId(users, userId)
    case Err(m) => (Err(m), rows)
    case Ok(familyId) =>
      var n := NewNotification(userId, familyId, BUDGET_ALERT, AlertTitle(), AlertMessage(usagePercentage),
                               Some(AlertData(budgetId, usagePercentage)), now);
      (Ok(()), SaveThenMail(users, rows, userId, n, mailed))
  }

  /** `createBudgetExceededAlert`: saved once, never mailed. */
  function CreateBudgetExceededAlertEffect(users: seq<Row<User>>, rows: seq<Row<Notification>>, userId: Id,
                                           budgetId: Id, usagePercentage: real, now: Instant)
    : (out: (Result<()>, seq<Row<Notification>>))
    ensures out.0.Err? <==> !HasId(users, userId)
    ensures out.0.Err? ==> out.1 == rows && out.0.message == "User not found"
  {
    match UserService.CurrentFamilyId(users, userId)
    case Err(m) => (Err(m), rows)
    case Ok(familyId) =>
      var n := NewNotification(userId, familyId, BUDGET_EXCEEDED, ExceededTitle(), ExceededMessage(usagePercentage),
                               Some(AlertData(budgetId, usagePercentage)), now);
      (Ok(()), rows + [Row(FreshId(rows), n)])
  }

  /** `createWeeklySummary`: no data map; `summaryContent` only goes into the
      e-mail. */
  function CreateWeeklySummaryEffect(users: seq<Row<User>>, rows: seq<Row<Notification>>, userId: Id,
                                     mailed: bool, now: Instant): (out: (Result<()>, seq<Row<Notification>>))
    ensures out.0.Err? <==> !HasId(users, userId)
    ensures out.0.Err? ==> out.1 == rows && out.0.message == "User not found"
  {
    match UserService.CurrentFamilyId(users, userId)
    case Err(m) => (Err(m), rows)
    case Ok(familyId) =>
      var n := NewNotification(userId, familyId, WEEKLY_SUMMARY, SummaryTitle(), SummaryMessage(), None, now);
      (Ok(()), SaveThenMail(users, rows, userId, n, mailed))
  }

  /** The budget alert is stored whatever happens to the e-mail: exactly one
      new unread BUDGET_ALERT carrying the budget id and the percentage, whose
      `emailSent` is set exactly when the e-mail step completed. Nothing else
      changes. */
  lemma AlertIsKeptWhateverTheMail(users: seq<Row<User>>, rows: seq<Row<Notification>>, userId: Id, budgetId: Id,
                                   usagePercentage: real, mailed: bool, now: Instant)
    requires HasId(users, userId)
    ensures var r := CreateBudgetAlertEffect(users, rows, userId, budgetId, usagePercentage, mailed, now).1;
      |r| == |rows| + 1 && r[..|rows|] == rows && !HasId(rows, r[|rows|].id)
      && r[|rows|].val.notificationType == BUDGET_ALERT && r[|rows|].val.userId == userId
      && r[|rows|].val.data == Some(AlertData(budgetId, usagePercentage))
      && !r[|rows|].val.isRead
      && (r[|rows|].val.emailSent <==> mailed)
  {
  }

  /** The exceeded alert never records an e-mail. */
  lemma ExceededAlertIsNeverMailed(users: seq<Row<User>>, rows: seq<Row<Notification>>, userId: Id, budgetId: Id,
                                   usagePercentage: real, now: Instant)
    requires HasId(users, userId)
    ensures var r := CreateBudgetExceededAlertEffect(users, rows, userId, budgetId, usagePercentage, now).1;
      |r| == |rows| + 1 && r[..|rows|] == rows
      && r[|rows|].val.notificationType == BUDGET_EXCEEDED && !r[|rows|].val.emailSent
      && r[|rows|].val.data == Some(AlertData(budgetId, usagePercentage))
  {
    var r := CreateBudgetExceededAlertEffect(users, rows, userId, budgetId, usagePercentage, now).1;
    assert r == rows + [r[|rows|]];
  }

  /** The weekly summary is stored whatever happens to the e-mail. */
  lemma SummaryIsKeptWhateverTheMail(users: seq<Row<User>>, rows: seq<Row<Notification>>, userId: Id,
                                     mailed: bool, now: Instant)
    requires HasId(users, userId)
    ensures var r := CreateWeeklySummaryEffect(users, rows, userId, mailed, now).1;
      |r| == |rows| + 1 && r[..|rows|] == rows && !HasId(rows, r[|rows|].id)
      && r[|rows|].val.notificationType == WEEKLY_SUMMARY && r[|rows|].val.data.None?
      && (r[|rows|].val.emailSent <==> mailed)
  {
  }

  /** `markAsRead`: set `isRead` on the notification with that id, if there
      is one. */
  function MarkAsReadEffect(rows: seq<Row<Notification>>, id: Id): (r: seq<Row<Notification>>)
    ensures !HasId(rows, id) ==> r == rows
    ensures HasId(rows, id) ==> Find(r, id) == Some(Find(rows, id).value.(isRead := true))
    ensures forall other :: other != id ==> Find(r, other) == Find(rows, other)
  {
    match Find(rows, id)
    case None => rows
    case Some(n) =>
      FindAfterUpsert(rows, id, n.(isRead := true), id);
      assert forall other :: other != id ==> Find(Upsert(rows, id, n.(isRead := true)), other) == Find(rows, other) by {
        forall other | other != id
          ensures Find(Upsert(rows, id, n.(isRead := true)), other) == Find(rows, other)
        {
          FindAfterUpsert(rows, id, n.(isRead := true), other);
        }
      }
      Upsert(rows, id, n.(isRead := true))
  }

  /** Marking twice is marking once. */
  lemma {:induction false} MarkAsReadIdempotent(rows: seq<Row<Notification>>, id: Id)
    requires UniqueIds(rows)
    ensures MarkAsReadEffect(MarkAsReadEffect(rows, id), id) == MarkAsReadEffect(rows, id)
  {
    if HasId(rows, id) {
      var n := Find(rows, id).value;
      UpsertTwice(rows, id, n.(isRead := true), n.(isRead := true));
    }
  }

  /** `countByUserIdAndIsRead(userId, false)` */
  function UnreadOf(userId: Id): Notification -> bool {
    (n: Notification) => n.userId == userId && !n.isRead
  }

  /** `countByUserIdAndIsRead(userId, false)`: zero exactly when the user has
      no unread notification. */
  function GetUnreadCount(rows: seq<Row<Notification>>, userId: Id): (n: nat)
    ensures n <= |rows|
    ensures n == 0 <==> forall i :: 0 <= i < |rows| ==> !UnreadOf(userId)(rows[i].val)
  {
    var unread := Select(rows, UnreadOf(userId));
    assert unread != [] ==> exists i :: 0 <= i < |rows| && rows[i] == unread[0];
    Count(rows, UnreadOf(userId))
  }

  function CreatedAt(n: Notification): int { n.createdAt }

  /** `findByUserIdOrderByCreatedAtDesc` */
  function GetUserNotifications(rows: seq<Row<Notification>>, userId: Id): (r: seq<Row<Notification>>)
    ensures Repo.NewestFirst(r, CreatedAt)
    ensures multiset(r) == multiset(Select(rows, (n: Notification) => n.userId == userId))
  {
    Repo.SortNewestFirst(Select(rows, (n: Notification) => n.userId == userId), CreatedAt)
  }

  /** `findByUserIdAndIsReadOrderByCreatedAtDesc(userId, false)` */
  function GetUnreadNotifications(rows: seq<Row<Notification>>, userId: Id): (r: seq<Row<Notification>>)
    ensures Repo.NewestFirst(r, CreatedAt)
    ensures multiset(r) == multiset(Select(rows, UnreadOf(userId)))
  {
    Repo.SortNewestFirst(Select(rows, UnreadOf(userId)), CreatedAt)
  }

  /** The unread count is the length of the unread list, and marking one of
      the user's unread notifications lowers it by exactly one. */
  lemma UnreadCountIsUnreadList(rows: seq<Row<Notification>>, userId: Id, id: Id)
    requires UniqueIds(rows)
    ensures GetUnreadCount(rows, userId) == |GetUnreadNotifications(rows, userId)|
    ensures HasId(rows, id) && UnreadOf(userId)(Find(rows, id).value) ==>
              GetUnreadCount(MarkAsReadEffect(rows, id), userId) == GetUnreadCount(rows, userId) - 1
    ensures !(HasId(rows, id) && UnreadOf(userId)(Find(rows, id).value)) ==>
              GetUnreadCount(MarkAsReadEffect(rows, id), userId) == GetUnreadCount(rows, userId)
  {
    if HasId(rows, id) {
      var n := Find(rows, id).value;
      CountAfterUpsert(rows, id, n.(isRead := true), UnreadOf(userId));
    }
  }

  class NotificationService {
    const notifications: Table<Notification>
    const users: Table<User>

    ghost predicate Valid()
      reads this, notifications, users
    {
      notifications.Valid() && users.Valid()
    }

    constructor (notifications: Table<Notification>, users: Table<User>)
      ensures this.notifications == notifications && this.users == users
    {
      this.notifications := notifications;
      this.users := users;
    }

    method CreateBudgetAlert(userId: Id, budgetId: Id, usagePercentage: real, mailed: bool, now: Instant)
      returns (r: Result<()>)
      requires Valid()
      modifies notifications
      ensures Valid()
      ensures (r, notifications.rows)
           == CreateBudgetAlertEffect(users.rows, old(notifications.rows), userId, budgetId, usagePercentage, mailed, now)
    {
      var familyId := UserService.CurrentFamilyId(users.rows, userId);
      if familyId.Err? {
        return Err(familyId.message);
      }
      var n := NewNotification(userId, familyId.value, BUDGET_ALERT, AlertTitle(), AlertMessage(usagePercentage),
                               Some(AlertData(budgetId, usagePercentage)), now);
      var id := notifications.Insert(n);
      var user := UserService.FindUser(users.rows, userId);
      if user.Ok? && mailed {
        notifications.Save(id, n.(emailSent := true));
      }
      r := Ok(());
    }

    method CreateBudgetExceededAlert(userId: Id, budgetId: Id, usagePercentage: real, now: Instant)
      returns (r: Result<()>)
      requires Valid()
      modifies notifications
      ensures Valid()
      ensures (r, notifications.rows)
           == CreateBudgetExceededAlertEffect(users.rows, old(notifications.rows), userId, budgetId, usagePercentage, now)
    {
      var familyId := UserService.CurrentFamilyId(users.rows, userId);
      if familyId.Err? {
        return Err(familyId.message);
      }
      var n := NewNotification(userId, familyId.value, BUDGET_EXCEEDED, ExceededTitle(), ExceededMessage(usagePercentage),
                               Some(AlertData(budgetId, usagePercentage)), now);
      var _ := notifications.Insert(n);
      r := Ok(());
    }

    method CreateWeeklySummary(userId: Id, mailed: bool, now: Instant) returns (r: Result<()>)
      requires Valid()
      modifies notifications
      ensures Valid()
      ensures (r, notifications.rows) == CreateWeeklySummaryEffect(users.rows, old(notifications.rows), userId, mailed, now)
    {
      var familyId := UserService.CurrentFamilyId(users.rows, userId);
      if familyId.Err? {
        return Err(familyId.message);
      }
      var n := NewNotification(userId, familyId.value, WEEKLY_SUMMARY, SummaryTitle(), SummaryMessage(), None, now);
      var id := notifications.Insert(n);
      var user := UserService.FindUser(users.rows, userId);
      if user.Ok? && mailed {
        notifications.Save(id, n.(emailSent := true));
      }
      r := Ok(());
    }

    method MarkAsRead(id: Id)
      requires Valid()
      modifies notifications
      ensures Valid()
      ensures notifications.rows == MarkAsReadEffect(old(notifications.rows), id)
    {
      var n := notifications.Get(id);
      if n.Some? {
        notifications.Save(id, n.value.(isRead := true));
      }
    }
  }
}
