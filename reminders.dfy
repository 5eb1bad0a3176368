/** The body of the daily reminder job: for each user, sort the user's items
    into near-expiry, expired and fresh-produce buckets, then build and send
    an email digest and a webhook digest when they are due. Dates enter as
    `daysLeft`, the whole days from today to an expiration date; sending is
    `delivers`, whether the channel accepted a message. */
module Reminders {
  import opened Domain
  import opened Seqs

  /** Items due within the user's lead time: 0 <= daysLeft <= reminder_days. */
  function NearExpiry(items: seq<Item>, reminderDays: int, daysLeft: string -> int): (r: seq<Item>)
    ensures forall x :: x in r <==> x in items && 0 <= daysLeft(x.expirationDate) <= reminderDays
    ensures forall x :: (multiset(r)[x] ==
      if 0 <= daysLeft(x.expirationDate) <= reminderDays then multiset(items)[x] else 0)
    ensures Subseq(r, items)
  {
    var p := (x: Item) => 0 <= daysLeft(x.expirationDate) <= reminderDays;
    FilterSpec(items, p);
    Filter(items, p)
  }

  /** Items whose expiration date has passed: daysLeft < 0. */
  function Expired(items: seq<Item>, daysLeft: string -> int): (r: seq<Item>)
    ensures forall x :: x in r <==> x in items && daysLeft(x.expirationDate) < 0
    ensures forall x :: (multiset(r)[x] ==
      if daysLeft(x.expirationDate) < 0 then multiset(items)[x] else 0)
    ensures Subseq(r, items)
  {
    var p := (x: Item) => daysLeft(x.expirationDate) < 0;
    FilterSpec(items, p);
    Filter(items, p)
  }

  /** Vegetables and fruit, whatever their dates. */
  function FreshProduce(items: seq<Item>): (r: seq<Item>)
    ensures forall x :: x in r <==> x in items && IsWeightCategory(x.category)
    ensures forall x :: (multiset(r)[x] ==
      if IsWeightCategory(x.category) then multiset(items)[x] else 0)
    ensures Subseq(r, items)
  {
    var p := (x: Item) => IsWeightCategory(x.category);
    FilterSpec(items, p);
    Filter(items, p)
  }

  /** No item is both near expiry and expired. */
  lemma NearAndExpiredDisjoint(items: seq<Item>, reminderDays: int, daysLeft: string -> int, x: Item)
    ensures !(x in NearExpiry(items, reminderDays, daysLeft) && x in Expired(items, daysLeft))
  {
  }

  /** An expired vegetable or fruit is reported twice: as fresh produce and as expired. */
  lemma ExpiredProduceInBothBuckets(items: seq<Item>, daysLeft: string -> int, x: Item)
    requires x in items && IsWeightCategory(x.category) && daysLeft(x.expirationDate) < 0
    ensures x in FreshProduce(items) && x in Expired(items, daysLeft)
  {
  }

  // ---------------------------------------------------------------------------
  // Digests are sequences of text pieces, one piece per `+=` of the job.

  /** A section of a digest: its heading, one piece per item and the pieces
      that close it; nothing at all when there are no items, as the job
      tests each bucket's length before writing the heading. */
  function Section(heading: string, entries: seq<string>, close: seq<string>): seq<string>
  {
    if entries == [] then [] else [heading] + entries + close
  }

  /** Selecting the item pieces of a section gives back exactly its entries. */
  lemma {:induction false} FilterSectionEntries(heading: string, entries: seq<string>, close: seq<string>,
                                                p: string -> bool)
    requires !p(heading)
    requires forall i :: 0 <= i < |entries| ==> p(entries[i])
    requires forall i :: 0 <= i < |close| ==> !p(close[i])
    ensures Filter(Section(heading, entries, close), p) == entries
  {
    if entries != [] {
      FilterAppend([heading] + entries, close, p);
      FilterAppend([heading], entries, p);
      FilterKeepsAll(entries, p);
      FilterDropsAll(close, p);
      FilterDropsAll([heading], p);
    }
  }

  /** Selecting the headings of a section gives its heading when it has entries. */
  lemma {:induction false} FilterSectionHeading(heading: string, entries: seq<string>, close: seq<string>,
                                                p: string -> bool)
    requires p(heading)
    requires forall i :: 0 <= i < |entries| ==> !p(entries[i])
    requires forall i :: 0 <= i < |close| ==> !p(close[i])
    ensures Filter(Section(heading, entries, close), p) == if entries == [] then [] else [heading]
  {
    if entries != [] {
      FilterAppend([heading] + entries, close, p);
      FilterAppend([heading], entries, p);
      FilterDropsAll(entries, p);
      FilterDropsAll(close, p);
      assert Filter([heading], p) == [heading] + Filter([], p);
    }
  }

  predicate StartsWith(s: string, prefix: string)
  {
    |prefix| <= |s| && s[..|prefix|] == prefix
  }

  // ---------------------------------------------------------------------------
  // The email digest.

  const EmailSubject: string := "家庭库存管理 - 临期提醒"
  const EmailTitle: string := "<h2>库存提醒</h2>"
  const EmailExpiredHeading: string := "<h3>已过期物品:</h3><ul>"
  const ListClose: string := "</ul>"

  function EmailNearHeading(days: string): string
  {
    "<h3>临期物品 (未来 " + days + " 天内过期):</h3><ul>"
  }

  function EmailEntry(x: Item): string
  {
    "<li>" + x.name + " - 过期日期: " + x.expirationDate + "</li>"
  }

  function EmailEntries(xs: seq<Item>): seq<string>
  {
    seq(|xs|, i requires 0 <= i < |xs| => EmailEntry(xs[i]))
  }

  /** The pieces the email is built from, in order; `days` is the lead time
      as it is printed. */
  function EmailParts(days: string, near: seq<Item>, expired: seq<Item>): seq<string>
  {
    [EmailTitle]
    + Section(EmailNearHeading(days), EmailEntries(near), [ListClose])
    + Section(EmailExpiredHeading, EmailEntries(expired), [ListClose])
  }

  /** A list item of the email. */
  predicate IsListEntry(s: string)
  {
    StartsWith(s, "<li>")
  }

  /** A section heading of the email. */
  predicate IsSectionHeading(s: string)
  {
    StartsWith(s, "<h3>")
  }

  /** The fixed pieces of the email are headings or neither kind of piece. */
  lemma EmailPieceKinds(days: string)
    ensures !IsListEntry(EmailTitle) && !IsSectionHeading(EmailTitle)
    ensures !IsListEntry(ListClose) && !IsSectionHeading(ListClose)
    ensures !IsListEntry(EmailNearHeading(days)) && IsSectionHeading(EmailNearHeading(days))
    ensures !IsListEntry(EmailExpiredHeading) && IsSectionHeading(EmailExpiredHeading)
  {
    assert EmailTitle[1] == 'h' && EmailTitle[2] == '2';
    assert ListClose[1] == '/';
    assert EmailNearHeading(days)[..4] == "<h3>";
    assert EmailExpiredHeading[..4] == "<h3>";
  }

  /** Every item line of the email is a list item and not a heading. */
  lemma EmailEntryKinds(xs: seq<Item>)
    ensures forall i :: 0 <= i < |EmailEntries(xs)| ==> IsListEntry(EmailEntries(xs)[i])
    ensures forall i :: 0 <= i < |EmailEntries(xs)| ==> !IsSectionHeading(EmailEntries(xs)[i])
  {
    forall i | 0 <= i < |xs|
      ensures IsListEntry(EmailEntry(xs[i])) && !IsSectionHeading(EmailEntry(xs[i]))
    {
      assert EmailEntry(xs[i])[..4] == "<li>";
    }
  }

  /** The email lists one item per near-expiry item and then one per expired
      item, each in bucket order, and nothing else. */
  lemma {:induction false} EmailListsEachItemInOrder(days: string, near: seq<Item>, expired: seq<Item>)
    ensures Filter(EmailParts(days, near, expired), IsListEntry)
         == EmailEntries(near) + EmailEntries(expired)
  {
    var nearPart := Section(EmailNearHeading(days), EmailEntries(near), [ListClose]);
    var expiredPart := Section(EmailExpiredHeading, EmailEntries(expired), [ListClose]);
    FilterAppend([EmailTitle] + nearPart, expiredPart, IsListEntry);
    FilterAppend([EmailTitle], nearPart, IsListEntry);
    EmailPieceKinds(days);
    EmailEntryKinds(near);
    EmailEntryKinds(expired);
    FilterDropsAll([EmailTitle], IsListEntry);
    FilterSectionEntries(EmailNearHeading(days), EmailEntries(near), [ListClose], IsListEntry);
    FilterSectionEntries(EmailExpiredHeading, EmailEntries(expired), [ListClose], IsListEntry);
  }

  /** The email has a near-expiry heading exactly when some item is near
      expiry and an expired heading exactly when some item has expired, in
      that order. */
  lemma {:induction false} EmailSectionsPresentIffNonEmpty(days: string, near: seq<Item>, expired: seq<Item>)
    ensures Filter(EmailParts(days, near, expired), IsSectionHeading)
         == (if |near| > 0 then [EmailNearHeading(days)] else [])
          + (if |expired| > 0 then [EmailExpiredHeading] else [])
  {
    var nearPart := Section(EmailNearHeading(days), EmailEntries(near), [ListClose]);
    var expiredPart := Section(EmailExpiredHeading, EmailEntries(expired), [ListClose]);
    FilterAppend([EmailTitle] + nearPart, expiredPart, IsSectionHeading);
    FilterAppend([EmailTitle], nearPart, IsSectionHeading);
    EmailPieceKinds(days);
    EmailEntryKinds(near);
    EmailEntryKinds(expired);
    FilterDropsAll([EmailTitle], IsSectionHeading);
    FilterSectionHeading(EmailNearHeading(days), EmailEntries(near), [ListClose], IsSectionHeading);
    FilterSectionHeading(EmailExpiredHeading, EmailEntries(expired), [ListClose], IsSectionHeading);
  }

  lemma ConcatSingle(piece: string)
    ensures Concat([piece]) == piece
  {
    assert Concat([piece]) == piece + Concat([]);
  }

  /** Joining a section gives its heading, its entries and its closing
      pieces, or nothing when it has no entries. */
  lemma ConcatSection(heading: string, entries: seq<string>, close: seq<string>)
    ensures Concat(Section(heading, entries, close))
         == if entries == [] then "" else heading + Concat(entries) + Concat(close)
  {
    if entries != [] {
      ConcatAppend([heading] + entries, close);
      ConcatAppend([heading], entries);
      ConcatSingle(heading);
    }
  }

  /** Joining a title and the pieces that follow it. */
  lemma ConcatTitled(title: string, a: seq<string>, b: seq<string>)
    ensures Concat([title] + a + b) == title + Concat(a) + Concat(b)
  {
    ConcatAppend([title] + a, b);
    ConcatAppend([title], a);
    ConcatSingle(title);
  }

  /** Text followed by a section: the section's heading, entries and closing
      pieces after it, or the text alone when the section has no entries. */
  lemma ConcatAfter(text: string, heading: string, entries: seq<string>, close: seq<string>)
    ensures text + Concat(Section(heading, entries, close))
         == if entries == [] then text else text + heading + Concat(entries) + Concat(close)
  {
    ConcatSection(heading, entries, close);
  }

  /** One more piece joined. */
  lemma ConcatStep(pieces: seq<string>, i: nat)
    requires i < |pieces|
    ensures Concat(pieces[..i + 1]) == Concat(pieces[..i]) + pieces[i]
  {
    assert pieces[..i + 1] == pieces[..i] + [pieces[i]];
    ConcatAppend(pieces[..i], [pieces[i]]);
    ConcatSingle(pieces[i]);
  }

  /** Appends one `<li>` line per item, in order. */
  method AppendEmailEntries(html: string, xs: seq<Item>) returns (r: string)
    ensures r == html + Concat(EmailEntries(xs))
  {
    r := html;
    for i := 0 to |xs|
      invariant r == html + Concat(EmailEntries(xs)[..i])
    {
      ConcatStep(EmailEntries(xs), i);
      r := r + EmailEntry(xs[i]);
    }
    assert EmailEntries(xs)[..|xs|] == EmailEntries(xs);
  }

  /** Builds the email body the way the job does, appending one piece at a time. */
  method BuildEmail(days: string, near: seq<Item>, expired: seq<Item>) returns (html: string)
    ensures html == Concat(EmailParts(days, near, expired))
  {
    ghost var nearPart := Section(EmailNearHeading(days), EmailEntries(near), [ListClose]);
    ghost var expiredPart := Section(EmailExpiredHeading, EmailEntries(expired), [ListClose]);
    ConcatTitled(EmailTitle, nearPart, expiredPart);
    ConcatSingle(ListClose);
    ConcatAfter(EmailTitle, EmailNearHeading(days), EmailEntries(near), [ListClose]);
    ConcatAfter(EmailTitle + Concat(nearPart), EmailExpiredHeading, EmailEntries(expired), [ListClose]);
    html := EmailTitle;
    if |near| > 0 {
      html := html + EmailNearHeading(days);
      html := AppendEmailEntries(html, near);
      html := html + ListClose;
    }
    if |expired| > 0 {
      html := html + EmailExpiredHeading;
      html := AppendEmailEntries(html, expired);
      html := html + ListClose;
    }
  }

  // ---------------------------------------------------------------------------
  // The webhook digest.

  const ReportTitle: string := "【家庭库存每日报告】\n\n"
  const FreshHeading: string := "🍎 生鲜果蔬库存:\n"
  const WebhookExpiredHeading: string := "❌ 已过期物品:\n"
  const BlankLine: string := "\n"

  function WebhookNearHeading(days: string): string
  {
    "⚠️ 临期提醒 (未来 " + days + " 天内):\n"
  }

  /** A number or null as a template literal prints it; `show` stands for
      JavaScript's number-to-string conversion. */
  function AmountText(x: Option<real>, show: real -> string): string
  {
    match x
    case None => "null"
    case Some(v) => show(v)
  }

  /** A fresh-produce line: name, `weight || quantity`, unit. */
  function FreshEntry(x: Item, show: real -> string): string
  {
    "- " + x.name + ": " + AmountText(Or(x.weight, x.quantity), show) + " " + x.unit + "\n"
  }

  /** A near-expiry or expired line: name and expiration date. */
  function DateEntry(x: Item): string
  {
    "- " + x.name + " (" + x.expirationDate + ")\n"
  }

  function FreshEntries(xs: seq<Item>, show: real -> string): seq<string>
  {
    seq(|xs|, i requires 0 <= i < |xs| => FreshEntry(xs[i], show))
  }

  function DateEntries(xs: seq<Item>): seq<string>
  {
    seq(|xs|, i requires 0 <= i < |xs| => DateEntry(xs[i]))
  }

  /** The pieces the webhook message is built from, in order. */
  function WebhookParts(days: string, show: real -> string,
                        produce: seq<Item>, near: seq<Item>, expired: seq<Item>): seq<string>
  {
    [ReportTitle]
    + Section(FreshHeading, FreshEntries(produce, show), [BlankLine])
    + Section(WebhookNearHeading(days), DateEntries(near), [BlankLine])
    + Section(WebhookExpiredHeading, DateEntries(expired), [])
  }

  /** A bulleted line of the webhook message. */
  predicate IsBullet(s: string)
  {
    StartsWith(s, "- ")
  }

  /** A section heading of the webhook message: it starts with the section's emoji. */
  predicate IsWebhookHeading(s: string)
  {
    |s| > 0 && (s[0] == '🍎' || s[0] == '⚠' || s[0] == '❌')
  }

  /** The fixed pieces of the webhook message are headings or neither kind of piece. */
  lemma WebhookPieceKinds(days: string)
    ensures !IsBullet(ReportTitle) && !IsWebhookHeading(ReportTitle)
    ensures !IsBullet(BlankLine) && !IsWebhookHeading(BlankLine)
    ensures !IsBullet(FreshHeading) && IsWebhookHeading(FreshHeading)
    ensures !IsBullet(WebhookNearHeading(days)) && IsWebhookHeading(WebhookNearHeading(days))
    ensures !IsBullet(WebhookExpiredHeading) && IsWebhookHeading(WebhookExpiredHeading)
  {
    assert ReportTitle[0] == '【';
    assert FreshHeading[0] == '🍎';
    assert WebhookNearHeading(days)[0] == '⚠';
    assert WebhookExpiredHeading[0] == '❌';
  }

  /** Every item line of the webhook message is a bullet and not a heading. */
  lemma WebhookEntryKinds(xs: seq<Item>, show: real -> string)
    ensures forall i :: 0 <= i < |FreshEntries(xs, show)| ==> IsBullet(FreshEntries(xs, show)[i])
    ensures forall i :: 0 <= i < |FreshEntries(xs, show)| ==> !IsWebhookHeading(FreshEntries(xs, show)[i])
    ensures forall i :: 0 <= i < |DateEntries(xs)| ==> IsBullet(DateEntries(xs)[i])
    ensures forall i :: 0 <= i < |DateEntries(xs)| ==> !IsWebhookHeading(DateEntries(xs)[i])
  {
    forall i | 0 <= i < |xs|
      ensures IsBullet(FreshEntry(xs[i], show)) && !IsWebhookHeading(FreshEntry(xs[i], show))
      ensures IsBullet(DateEntry(xs[i])) && !IsWebhookHeading(DateEntry(xs[i]))
    {
      assert FreshEntry(xs[i], show)[..2] == "- ";
      assert DateEntry(xs[i])[..2] == "- ";
    }
  }

  /** The webhook message has one line per produce item, then one per
      near-expiry item, then one per expired item, and no other bullets. */
  lemma {:induction false} WebhookListsEachItemInOrder(days: string, show: real -> string,
                                                       produce: seq<Item>, near: seq<Item>, expired: seq<Item>)
    ensures Filter(WebhookParts(days, show, produce, near, expired), IsBullet)
         == FreshEntries(produce, show) + DateEntries(near) + DateEntries(expired)
  {
    var producePart := Section(FreshHeading, FreshEntries(produce, show), [BlankLine]);
    var nearPart := Section(WebhookNearHeading(days), DateEntries(near), [BlankLine]);
    var expiredPart := Section(WebhookExpiredHeading, DateEntries(expired), []);
    FilterAppend([ReportTitle] + producePart + nearPart, expiredPart, IsBullet);
    FilterAppend([ReportTitle] + producePart, nearPart, IsBullet);
    FilterAppend([ReportTitle], producePart, IsBullet);
    WebhookPieceKinds(days);
    WebhookEntryKinds(produce, show);
    WebhookEntryKinds(near, show);
    WebhookEntryKinds(expired, show);
    FilterDropsAll([ReportTitle], IsBullet);
    FilterSectionEntries(FreshHeading, FreshEntries(produce, show), [BlankLine], IsBullet);
    FilterSectionEntries(WebhookNearHeading(days), DateEntries(near), [BlankLine], IsBullet);
    FilterSectionEntries(WebhookExpiredHeading, DateEntries(expired), [], IsBullet);
  }

  /** The webhook message has its sections in the order fresh produce,
      near expiry, expired, each exactly when its bucket is non-empty. */
  lemma {:induction false} WebhookSectionsInOrder(days: string, show: real -> string,
                                                  produce: seq<Item>, near: seq<Item>, expired: seq<Item>)
    ensures Filter(WebhookParts(days, show, produce, near, expired), IsWebhookHeading)
         == (if |produce| > 0 then [FreshHeading] else [])
          + (if |near| > 0 then [WebhookNearHeading(days)] else [])
          + (if |expired| > 0 then [WebhookExpiredHeading] else [])
  {
    var producePart := Section(FreshHeading, FreshEntries(produce, show), [BlankLine]);
    var nearPart := Section(WebhookNearHeading(days), DateEntries(near), [BlankLine]);
    var expiredPart := Section(WebhookExpiredHeading, DateEntries(expired), []);
    FilterAppend([ReportTitle] + producePart + nearPart, expiredPart, IsWebhookHeading);
    FilterAppend([ReportTitle] + producePart, nearPart, IsWebhookHeading);
    FilterAppend([ReportTitle], producePart, IsWebhookHeading);
    WebhookPieceKinds(days);
    WebhookEntryKinds(produce, show);
    WebhookEntryKinds(near, show);
    WebhookEntryKinds(expired, show);
    FilterDropsAll([ReportTitle], IsWebhookHeading);
    FilterSectionHeading(FreshHeading, FreshEntries(produce, show), [BlankLine], IsWebhookHeading);
    FilterSectionHeading(WebhookNearHeading(days), DateEntries(near), [BlankLine], IsWebhookHeading);
    FilterSectionHeading(WebhookExpiredHeading, DateEntries(expired), [], IsWebhookHeading);
  }

  /** A vegetable whose weight an outbound movement brought to 0 and whose
      quantity is null is listed with the amount "null", because the line
      prints `weight || quantity` and 0 is falsy. */
  lemma EmptiedProduceShowsNull(x: Item, show: real -> string)
    requires x.weight == Some(0.0) && x.quantity == None
    ensures FreshEntry(x, show) == "- " + x.name + ": null " + x.unit + "\n"
  {
  }

  /** Appends one produce line per item, in order. */
  method AppendFreshEntries(msg: string, xs: seq<Item>, show: real -> string) returns (r: string)
    ensures r == msg + Concat(FreshEntries(xs, show))
  {
    r := msg;
    for i := 0 to |xs|
      invariant r == msg + Concat(FreshEntries(xs, show)[..i])
    {
      ConcatStep(FreshEntries(xs, show), i);
      r := r + FreshEntry(xs[i], show);
    }
    assert FreshEntries(xs, show)[..|xs|] == FreshEntries(xs, show);
  }

  /** Appends one dated line per item, in order. */
  method AppendDateEntries(msg: string, xs: seq<Item>) returns (r: string)
    ensures r == msg + Concat(DateEntries(xs))
  {
    r := msg;
    for i := 0 to |xs|
      invariant r == msg + Concat(DateEntries(xs)[..i])
    {
      ConcatStep(DateEntries(xs), i);
      r := r + DateEntry(xs[i]);
    }
    assert DateEntries(xs)[..|xs|] == DateEntries(xs);
  }

  /** Builds the webhook message the way the job does, appending one piece at a time. */
  method BuildWebhook(days: string, show: real -> string,
                      produce: seq<Item>, near: seq<Item>, expired: seq<Item>) returns (msg: string)
    ensures msg == Concat(WebhookParts(days, show, produce, near, expired))
  {
    ghost var producePart := Section(FreshHeading, FreshEntries(produce, show), [BlankLine]);
    ghost var nearPart := Section(WebhookNearHeading(days), DateEntries(near), [BlankLine]);
    ghost var expiredPart := Section(WebhookExpiredHeading, DateEntries(expired), []);
    ConcatAppend([ReportTitle] + producePart + nearPart, expiredPart);
    ConcatTitled(ReportTitle, producePart, nearPart);
    ConcatSingle(BlankLine);
    ConcatAfter(ReportTitle, FreshHeading, FreshEntries(produce, show), [BlankLine]);
    ConcatAfter(ReportTitle + Concat(producePart), WebhookNearHeading(days), DateEntries(near), [BlankLine]);
    ConcatAfter(ReportTitle + Concat(producePart) + Concat(nearPart),
                WebhookExpiredHeading, DateEntries(expired), []);
    msg := ReportTitle;
    if |produce| > 0 {
      msg := msg + FreshHeading;
      msg := AppendFreshEntries(msg, produce, show);
      msg := msg + BlankLine;
    }
    if |near| > 0 {
      msg := msg + WebhookNearHeading(days);
      msg := AppendDateEntries(msg, near);
      msg := msg + BlankLine;
    }
    if |expired| > 0 {
      msg := msg + WebhookExpiredHeading;
      msg := AppendDateEntries(msg, expired);
    }
  }

  // ---------------------------------------------------------------------------
  // One tick of the job.

  /** A message handed to a channel. */
  datatype Dispatch =
    | Email(to: string, subject: string, html: string)
    | Webhook(url: string, content: string)

  /** A send and whether the channel accepted it. */
  datatype Attempt = Attempt(dispatch: Dispatch, delivered: bool)

  /** `attempts` sends `ds` in order, each recorded with the channel's answer. */
  predicate Records(attempts: seq<Attempt>, ds: seq<Dispatch>, delivers: Dispatch -> bool)
  {
    && |attempts| == |ds|
    && forall i :: 0 <= i < |attempts| ==>
         attempts[i].dispatch == ds[i] && attempts[i].delivered == delivers(ds[i])
  }

  lemma RecordsAppend(a: seq<Attempt>, ds: seq<Dispatch>, b: seq<Attempt>, es: seq<Dispatch>,
                      delivers: Dispatch -> bool)
    requires Records(a, ds, delivers) && Records(b, es, delivers)
    ensures Records(a + b, ds + es, delivers)
  {
  }

  /** The message goes to one of this user's channels: an email to their
      address, a webhook message to their webhook. */
  predicate SentTo(d: Dispatch, user: User)
  {
    || (d.Email? && TruthyText(user.email) && d.to == user.email.value)
    || (d.Webhook? && TruthyText(user.webhook) && d.url == user.webhook.value)
  }

  /** The email is sent when the user has an email address, SMTP_HOST is
      set and some item is near expiry or expired. */
  function EmailDue(user: User, smtpHost: string, near: seq<Item>, expired: seq<Item>): (due: bool)
    ensures due ==> TruthyText(user.email) && smtpHost != ""
    ensures near + expired == [] ==> !due
    ensures TruthyText(user.email) && smtpHost != "" && near + expired != [] ==> due
  {
    TruthyText(user.email) && (|near| > 0 || |expired| > 0) && smtpHost != ""
  }

  /** The webhook message is sent when the user has a webhook and some
      bucket is non-empty. */
  function WebhookDue(user: User, produce: seq<Item>, near: seq<Item>, expired: seq<Item>): (due: bool)
    ensures due ==> TruthyText(user.webhook)
    ensures produce + near + expired == [] ==> !due
    ensures TruthyText(user.webhook) && produce + near + expired != [] ==> due
  {
    TruthyText(user.webhook) && (|produce| > 0 || |near| > 0 || |expired| > 0)
  }

  /** WHERE user_id = ? */
  function OwnedBy(userId: nat): Item -> bool
  {
    (x: Item) => x.userId == userId
  }

  /** The messages due for one user's buckets, email first; `days` is the
      lead time as it is printed. */
  function Dispatches(user: User, smtpHost: string, days: string, show: real -> string,
                      produce: seq<Item>, near: seq<Item>, expired: seq<Item>): (ds: seq<Dispatch>)
    ensures forall d :: d in ds ==> SentTo(d, user)
    ensures (exists d :: d in ds && d.Email?) <==> EmailDue(user, smtpHost, near, expired)
    ensures (exists d :: d in ds && d.Webhook?) <==> WebhookDue(user, produce, near, expired)
    ensures forall i, j :: 0 <= i < j < |ds| ==> ds[i].Email? && ds[j].Webhook?
    ensures forall d :: d in ds && d.Email? ==>
      d.subject == EmailSubject && d.html == Concat(EmailParts(days, near, expired))
    ensures forall d :: d in ds && d.Webhook? ==>
      d.content == Concat(WebhookParts(days, show, produce, near, expired))
  {
    var email := if EmailDue(user, smtpHost, near, expired)
      then [Email(user.email.value, EmailSubject, Concat(EmailParts(days, near, expired)))]
      else [];
    var webhook := if WebhookDue(user, produce, near, expired)
      then [Webhook(user.webhook.value, Concat(WebhookParts(days, show, produce, near, expired)))]
      else [];
    assert email != [] ==> email[0] in email + webhook;
    assert webhook != [] ==> webhook[0] in email + webhook;
    email + webhook
  }

  /** The messages the job sends for one user. `table` is the items table
      in scan order. */
  function UserDispatches(user: User, table: seq<Item>, smtpHost: string,
                          daysLeft: string -> int, show: real -> string): (ds: seq<Dispatch>)
    ensures |ds| <= 2
    ensures forall d :: d in ds ==> SentTo(d, user)
  {
    var items := Filter(table, OwnedBy(user.id));
    Dispatches(user, smtpHost, show(user.reminderDays as real), show, FreshProduce(items),
               NearExpiry(items, user.reminderDays, daysLeft), Expired(items, daysLeft))
  }

  /** The messages one tick sends, user after user. */
  function TickDispatches(users: seq<User>, table: seq<Item>, smtpHost: string,
                          daysLeft: string -> int, show: real -> string): (ds: seq<Dispatch>)
    ensures |ds| <= 2 * |users|
    ensures forall d :: d in ds ==> exists u :: u in users && SentTo(d, u)
  {
    if users == [] then []
    else TickDispatches(users[..|users| - 1], table, smtpHost, daysLeft, show)
         + UserDispatches(users[|users| - 1], table, smtpHost, daysLeft, show)
  }

  /** A user with neither an email address nor a webhook is sent nothing,
      whatever their items. */
  lemma NoChannelNoDispatch(user: User, table: seq<Item>, smtpHost: string,
                            daysLeft: string -> int, show: real -> string)
    requires !TruthyText(user.email) && !TruthyText(user.webhook)
    ensures UserDispatches(user, table, smtpHost, daysLeft, show) == []
  {
  }

  /** A user none of whose items is near expiry, expired or fresh produce
      is sent nothing. */
  lemma {:induction false} DispatchOnlyWhenSomethingToReport(user: User, table: seq<Item>, smtpHost: string,
                                                             daysLeft: string -> int, show: real -> string)
    ensures (forall x :: x in table && x.userId == user.id ==>
               && !(0 <= daysLeft(x.expirationDate) <= user.reminderDays)
               && daysLeft(x.expirationDate) >= 0
               && !IsWeightCategory(x.category))
        ==> UserDispatches(user, table, smtpHost, daysLeft, show) == []
  {
    var items := Filter(table, OwnedBy(user.id));
    FilterSpec(table, OwnedBy(user.id));
    var near := NearExpiry(items, user.reminderDays, daysLeft);
    var expired := Expired(items, daysLeft);
    var produce := FreshProduce(items);
    if |near| > 0 {
      assert near[0] in items;
    } else if |expired| > 0 {
      assert expired[0] in items;
    } else if |produce| > 0 {
      assert produce[0] in items;
    }
  }

  /** The sends for one user's buckets: the email, then the webhook
      message, each when it is due. A failed send is only recorded. */
  method SendDigests(user: User, smtpHost: string, days: string, show: real -> string,
                     produce: seq<Item>, near: seq<Item>, expired: seq<Item>, delivers: Dispatch -> bool)
    returns (attempts: seq<Attempt>)
    ensures Records(attempts, Dispatches(user, smtpHost, days, show, produce, near, expired), delivers)
  {
    attempts := [];
    ghost var email: seq<Dispatch> := [];
    ghost var webhook: seq<Dispatch> := [];

    if EmailDue(user, smtpHost, near, expired) {
      var html := BuildEmail(days, near, expired);
      var d := Email(user.email.value, EmailSubject, html);
      attempts, email := attempts + [Attempt(d, delivers(d))], [d];
    }

    if TruthyText(user.webhook) {
      var msg := BuildWebhook(days, show, produce, near, expired);
      if |produce| > 0 || |near| > 0 || |expired| > 0 {
        var d := Webhook(user.webhook.value, msg);
        attempts, webhook := attempts + [Attempt(d, delivers(d))], [d];
      }
    }
    assert Records(attempts, email + webhook, delivers);
  }

  /** The sends for one user: their items sorted into the three buckets,
      then the digests. */
  method NotifyUser(user: User, table: seq<Item>, smtpHost: string,
                    daysLeft: string -> int, show: real -> string, delivers: Dispatch -> bool)
    returns (attempts: seq<Attempt>)
    ensures Records(attempts, UserDispatches(user, table, smtpHost, daysLeft, show), delivers)
  {
    var items := Filter(table, OwnedBy(user.id));
    var near := NearExpiry(items, user.reminderDays, daysLeft);
    var expired := Expired(items, daysLeft);
    var produce := FreshProduce(items);
    attempts := SendDigests(user, smtpHost, show(user.reminderDays as real), show, produce, near, expired, delivers);
  }

  /** One tick: every user in turn. A failed send is recorded and the loop
      goes on, so what is sent never depends on whether earlier sends
      succeeded. */
  method Tick(users: seq<User>, table: seq<Item>, smtpHost: string,
              daysLeft: string -> int, show: real -> string, delivers: Dispatch -> bool)
    returns (attempts: seq<Attempt>)
    ensures Records(attempts, TickDispatches(users, table, smtpHost, daysLeft, show), delivers)
  {
    attempts := [];
    for k := 0 to |users|
      invariant Records(attempts, TickDispatches(users[..k], table, smtpHost, daysLeft, show), delivers)
    {
      var more := NotifyUser(users[k], table, smtpHost, daysLeft, show, delivers);
      RecordsAppend(attempts, TickDispatches(users[..k], table, smtpHost, daysLeft, show),
                    more, UserDispatches(users[k], table, smtpHost, daysLeft, show), delivers);
      attempts := attempts + more;
      assert users[..k + 1][..k] == users[..k];
    }
    assert users[..|users|] == users;
  }
}
