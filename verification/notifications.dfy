/** The status-transition handler of the plugin: it classifies a post status
    change into at most one notification kind, rate-limits "updated"
    notifications through a transient per post, resolves the recipients and
    sends one mail per recipient. The transient store and the mails sent
    (`wp_mail` calls) are the state it changes. */
module Notifications {
  import opened Wp
  import Php
  import Recipients
  import Composer

  /* ---------- classification ---------- */

  /** A toggle of `enabled_notifications` is on when its key holds "1". */
  predicate IsOn(enabled: map<string, string>, k: Kind) {
    Key(k) in enabled && enabled[Key(k)] == "1"
  }

  /** The status condition of each rule. */
  predicate StatusMatches(k: Kind, newStatus: string, oldStatus: string) {
    match k
    case Pending => oldStatus != "pending" && newStatus == "pending"
    case Published => oldStatus != "publish" && newStatus == "publish"
    case Draft => newStatus == "draft" && oldStatus != "draft" && oldStatus != "auto-draft"
    case Scheduled => newStatus == "future" && oldStatus != "future"
    case Updated => oldStatus == "publish" && newStatus == "publish"
    case Trashed => newStatus == "trash"
  }

  /** A rule fires when its status condition holds and its toggle is on. */
  predicate RuleHolds(k: Kind, newStatus: string, oldStatus: string, enabled: map<string, string>) {
    StatusMatches(k, newStatus, oldStatus) && IsOn(enabled, k)
  }

  /** The order in which the handler tests the rules. */
  const RuleOrder: seq<Kind> := [Pending, Published, Draft, Scheduled, Updated, Trashed]

  /** The first rule of `rules` that fires. */
  function FirstMatch(rules: seq<Kind>, newStatus: string, oldStatus: string, enabled: map<string, string>): Option<Kind> {
    if rules == [] then None
    else if RuleHolds(rules[0], newStatus, oldStatus, enabled) then Some(rules[0])
    else FirstMatch(rules[1..], newStatus, oldStatus, enabled)
  }

  /** The handler's chain of conditions, before the rate limit of the
      "updated" rule is applied. */
  function Classify(newStatus: string, oldStatus: string, enabled: map<string, string>): (r: Option<Kind>)
    ensures r.Some? ==> RuleHolds(r.value, newStatus, oldStatus, enabled)
  {
    if oldStatus != "pending" && newStatus == "pending" && IsOn(enabled, Pending) then Some(Pending)
    else if oldStatus != "publish" && newStatus == "publish" && IsOn(enabled, Published) then Some(Published)
    else if newStatus == "draft" && oldStatus != "draft" && oldStatus != "auto-draft" && IsOn(enabled, Draft) then Some(Draft)
    else if newStatus == "future" && oldStatus != "future" && IsOn(enabled, Scheduled) then Some(Scheduled)
    else if oldStatus == "publish" && newStatus == "publish" && IsOn(enabled, Updated) then Some(Updated)
    else if newStatus == "trash" && IsOn(enabled, Trashed) then Some(Trashed)
    else None
  }

  /** The chain tests the six rules in the fixed order and the first rule
      that fires wins. */
  lemma ClassifyIsFirstMatch(newStatus: string, oldStatus: string, enabled: map<string, string>)
    ensures Classify(newStatus, oldStatus, enabled) == FirstMatch(RuleOrder, newStatus, oldStatus, enabled)
  {
    var r0 := RuleOrder;
    var r1 := [Published, Draft, Scheduled, Updated, Trashed];
    var r2 := [Draft, Scheduled, Updated, Trashed];
    var r3 := [Scheduled, Updated, Trashed];
    var r4 := [Updated, Trashed];
    var r5 := [Trashed];
    assert r0[1..] == r1 && r1[1..] == r2 && r2[1..] == r3 && r3[1..] == r4 && r4[1..] == r5 && r5[1..] == [];
    assert FirstMatch(r5, newStatus, oldStatus, enabled) ==
      if RuleHolds(Trashed, newStatus, oldStatus, enabled) then Some(Trashed) else None;
    assert FirstMatch(r4, newStatus, oldStatus, enabled) ==
      if RuleHolds(Updated, newStatus, oldStatus, enabled) then Some(Updated) else FirstMatch(r5, newStatus, oldStatus, enabled);
    assert FirstMatch(r3, newStatus, oldStatus, enabled) ==
      if RuleHolds(Scheduled, newStatus, oldStatus, enabled) then Some(Scheduled) else FirstMatch(r4, newStatus, oldStatus, enabled);
    assert FirstMatch(r2, newStatus, oldStatus, enabled) ==
      if RuleHolds(Draft, newStatus, oldStatus, enabled) then Some(Draft) else FirstMatch(r3, newStatus, oldStatus, enabled);
    assert FirstMatch(r1, newStatus, oldStatus, enabled) ==
      if RuleHolds(Published, newStatus, oldStatus, enabled) then Some(Published) else FirstMatch(r2, newStatus, oldStatus, enabled);
    assert FirstMatch(r0, newStatus, oldStatus, enabled) ==
      if RuleHolds(Pending, newStatus, oldStatus, enabled) then Some(Pending) else FirstMatch(r1, newStatus, oldStatus, enabled);
  }

  /** At most one status condition holds for any transition, so the order of
      the rules never decides between two of them. */
  lemma StatusConditionsExclusive(a: Kind, b: Kind, newStatus: string, oldStatus: string)
    requires StatusMatches(a, newStatus, oldStatus) && StatusMatches(b, newStatus, oldStatus)
    ensures a == b
  {
  }

  /** The chain yields a kind exactly when that kind's rule fires, and nothing
      when no rule fires. */
  lemma ClassifySpec(newStatus: string, oldStatus: string, enabled: map<string, string>, k: Kind)
    ensures Classify(newStatus, oldStatus, enabled) == Some(k) <==> RuleHolds(k, newStatus, oldStatus, enabled)
    ensures Classify(newStatus, oldStatus, enabled) == None <==>
      forall j :: 0 <= j < |RuleOrder| ==> !RuleHolds(RuleOrder[j], newStatus, oldStatus, enabled)
  {
    var c := Classify(newStatus, oldStatus, enabled);
    if c.Some? && RuleHolds(k, newStatus, oldStatus, enabled) {
      StatusConditionsExclusive(c.value, k, newStatus, oldStatus);
    }
    if c.None? {
      forall j | 0 <= j < |RuleOrder| ensures !RuleHolds(RuleOrder[j], newStatus, oldStatus, enabled) {
        assert RuleOrder[j] in RuleOrder;
      }
    } else {
      assert RuleOrder[0] == Pending && RuleOrder[1] == Published && RuleOrder[2] == Draft;
      assert RuleOrder[3] == Scheduled && RuleOrder[4] == Updated && RuleOrder[5] == Trashed;
    }
  }

  /* ---------- the rate limit ---------- */

  const TransientPrefix := "post_notification_sent_"

  /** `HOUR_IN_SECONDS`, the lifetime given to the rate-limit transient. */
  const HourInSeconds := 3600

  /** The transient key of a post: the prefix followed by the post ID. */
  function TransientKey(postId: nat): string {
    TransientPrefix + Php.NatToDecimal(postId)
  }

  /** Two posts never share a transient key. */
  lemma TransientKeyInjective(a: nat, b: nat)
    ensures TransientKey(a) == TransientKey(b) ==> a == b
  {
    if TransientKey(a) == TransientKey(b) {
      assert TransientKey(a)[|TransientPrefix|..] == Php.NatToDecimal(a);
      assert TransientKey(b)[|TransientPrefix|..] == Php.NatToDecimal(b);
      Php.NatToDecimalInjective(a, b);
    }
  }

  /** A transient as `set_transient` stores it: its value and its lifetime in
      seconds. */
  datatype Transient = Transient(value: int, ttl: int)

  /* ---------- the stored settings, with the handler's defaults ---------- */

  function EnabledNotifications(option: OptionValue): map<string, string> {
    option.enabledNotifications.GetOr(map[])
  }

  function RecipientRoles(option: OptionValue): seq<string> {
    option.recipientRoles.GetOr([])
  }

  function RecipientUsers(option: OptionValue): seq<int> {
    option.recipientUsers.GetOr([])
  }

  function EnabledPostTypes(option: OptionValue): seq<string> {
    option.enabledPostTypes.GetOr(["post"])
  }

  /** The handler looks at a change only for a post that is neither an
      autosave nor a revision and whose type is enabled. */
  predicate Watched(post: Post, option: OptionValue) {
    !post.isAutosave && !post.isRevision && post.postType in EnabledPostTypes(option)
  }

  /** The kind the handler settles on, given the transients before the call. */
  function Decide(newStatus: string, oldStatus: string, post: Post, option: OptionValue,
                  store: map<string, Transient>): (r: Option<Kind>)
    ensures r.Some? ==> Watched(post, option) && RuleHolds(r.value, newStatus, oldStatus, EnabledNotifications(option))
    ensures r == Some(Updated) ==> TransientKey(post.id) !in store
  {
    if !Watched(post, option) then None
    else match Classify(newStatus, oldStatus, EnabledNotifications(option))
      case Some(Updated) => if TransientKey(post.id) in store then None else Some(Updated)
      case other => other
  }

  /** The transients after the call: the post's marker is written exactly when
      the handler settles on "updated". */
  function StoreAfter(newStatus: string, oldStatus: string, post: Post, option: OptionValue,
                      store: map<string, Transient>, now: int): (r: map<string, Transient>)
    ensures store.Keys <= r.Keys
    ensures forall key :: key in r && key != TransientKey(post.id) ==> key in store && r[key] == store[key]
  {
    if Decide(newStatus, oldStatus, post, option, store) == Some(Updated)
    then store[TransientKey(post.id) := Transient(now, HourInSeconds)]
    else store
  }

  /* ---------- dispatch ---------- */

  /** One recorded `wp_mail` call. */
  datatype Mail = Mail(to: string, subject: string, message: string, headers: seq<string>)

  const HtmlHeaders: seq<string> := ["Content-Type: text/html; charset=UTF-8"]

  /** The display name of the post's author, or "Unknown" when
      `get_userdata` finds no author. */
  function AuthorName(post: Post, dir: Directory): string {
    if post.author in dir.users then dir.users[post.author].displayName else "Unknown"
  }

  /** One mail per recipient, in recipient order. */
  function MailsTo(recipients: seq<User>, subject: string, message: string): seq<Mail> {
    if recipients == [] then []
    else
      var last := recipients[|recipients| - 1];
      MailsTo(recipients[..|recipients| - 1], subject, message) + [Mail(last.email, subject, message, HtmlHeaders)]
  }

  /** Every recipient gets exactly one mail, addressed to that recipient, and
      all mails share the subject, the message and the headers. */
  lemma {:induction false} MailsToSpec(recipients: seq<User>, subject: string, message: string)
    ensures |MailsTo(recipients, subject, message)| == |recipients|
    ensures forall i :: 0 <= i < |recipients| ==>
      MailsTo(recipients, subject, message)[i] == Mail(recipients[i].email, subject, message, HtmlHeaders)
  {
    if recipients != [] {
      var init := recipients[..|recipients| - 1];
      MailsToSpec(init, subject, message);
      forall i | 0 <= i < |init| ensures init[i] == recipients[i] { }
    }
  }

  /** The mails of one notification of kind `kind`. */
  function Dispatch(post: Post, kind: Kind, roles: seq<string>, ids: seq<int>, dir: Directory, site: Site): (r: seq<Mail>)
    ensures |r| == |Recipients.ResolveRecipients(roles, ids, dir)|
  {
    MailsToSpec(Recipients.ResolveRecipients(roles, ids, dir),
      Composer.Subject(Key(kind), post, site),
      Composer.Message(Key(kind), post, AuthorName(post, dir), site));
    MailsTo(Recipients.ResolveRecipients(roles, ids, dir),
      Composer.Subject(Key(kind), post, site),
      Composer.Message(Key(kind), post, AuthorName(post, dir), site))
  }

  /** The mails the handler sends: none unless a kind was settled on and at
      least one recipient role or user is configured. */
  function Sent(newStatus: string, oldStatus: string, post: Post, option: OptionValue,
                dir: Directory, site: Site, store: map<string, Transient>): (r: seq<Mail>)
    ensures r != [] ==>
      && Decide(newStatus, oldStatus, post, option, store).Some?
      && (RecipientRoles(option) != [] || RecipientUsers(option) != [])
  {
    match Decide(newStatus, oldStatus, post, option, store)
    case None => []
    case Some(k) =>
      if RecipientRoles(option) != [] || RecipientUsers(option) != []
      then Dispatch(post, k, RecipientRoles(option), RecipientUsers(option), dir, site)
      else []
  }

  /* ---------- properties of the handler ---------- */

  /** A kind is settled on only for a watched post whose rule fires; the
      "updated" kind only when the post has no marker yet. */
  lemma DecideSpec(newStatus: string, oldStatus: string, post: Post, option: OptionValue,
                   store: map<string, Transient>, k: Kind)
    ensures Decide(newStatus, oldStatus, post, option, store) == Some(k) <==>
      && Watched(post, option)
      && RuleHolds(k, newStatus, oldStatus, EnabledNotifications(option))
      && (k == Updated ==> TransientKey(post.id) !in store)
  {
    ClassifySpec(newStatus, oldStatus, EnabledNotifications(option), k);
    ClassifySpec(newStatus, oldStatus, EnabledNotifications(option), Updated);
  }

  /** On a site with no stored option every toggle is off, so no status
      change sends mail or writes a marker. */
  lemma NoOptionSendsNothing(newStatus: string, oldStatus: string, post: Post, dir: Directory, site: Site,
                             store: map<string, Transient>, now: int)
    ensures Sent(newStatus, oldStatus, post, NoOption, dir, site, store) == []
    ensures StoreAfter(newStatus, oldStatus, post, NoOption, store, now) == store
  {
  }

  /** A post the handler does not watch causes no mail and no transient write. */
  lemma UnwatchedPostIsIgnored(newStatus: string, oldStatus: string, post: Post, option: OptionValue,
                               dir: Directory, site: Site, store: map<string, Transient>, now: int)
    requires !Watched(post, option)
    ensures Sent(newStatus, oldStatus, post, option, dir, site, store) == []
    ensures StoreAfter(newStatus, oldStatus, post, option, store, now) == store
  {
  }

  /** Only the post's own marker is ever written, with the value `now` and a
      lifetime of one hour, and only together with an "updated" decision. */
  lemma StoreAfterSpec(newStatus: string, oldStatus: string, post: Post, option: OptionValue,
                       store: map<string, Transient>, now: int)
    ensures var after := StoreAfter(newStatus, oldStatus, post, option, store, now);
      && after.Keys <= store.Keys + {TransientKey(post.id)}
      && (forall key :: key in store && key != TransientKey(post.id) ==> key in after && after[key] == store[key])
      && (after != store <==> Decide(newStatus, oldStatus, post, option, store) == Some(Updated))
      && (after != store ==> after == store[TransientKey(post.id) := Transient(now, HourInSeconds)])
  {
    var after := StoreAfter(newStatus, oldStatus, post, option, store, now);
    if Decide(newStatus, oldStatus, post, option, store) == Some(Updated) {
      assert TransientKey(post.id) !in store;
      assert TransientKey(post.id) in after;
    }
  }

  /** A second publish-to-publish change of the same post, while the marker
      written by the first is present, sends nothing and writes nothing. */
  lemma RepeatedUpdateIsSuppressed(post: Post, option: OptionValue, dir: Directory, site: Site,
                                   store: map<string, Transient>, now: int, later: int)
    requires Decide("publish", "publish", post, option, store) == Some(Updated)
    ensures var store' := StoreAfter("publish", "publish", post, option, store, now);
      && Decide("publish", "publish", post, option, store') == None
      && Sent("publish", "publish", post, option, dir, site, store') == []
      && StoreAfter("publish", "publish", post, option, store', later) == store'
  {
  }

  /** The marker of one post does not affect the decision for another post. */
  lemma RateLimitIsPerPost(newStatus: string, oldStatus: string, post: Post, other: Post,
                           option: OptionValue, store: map<string, Transient>, now: int)
    requires other.id != post.id
    ensures var store' := StoreAfter(newStatus, oldStatus, post, option, store, now);
      Decide(newStatus, oldStatus, other, option, store') == Decide(newStatus, oldStatus, other, option, store)
  {
    TransientKeyInjective(post.id, other.id);
  }

  /** Mail goes out only for a settled kind and a configured recipient role or
      user, and then exactly one mail per resolved recipient, in order, all
      with the composer's subject and message for that kind. */
  lemma SentSpec(newStatus: string, oldStatus: string, post: Post, option: OptionValue,
                 dir: Directory, site: Site, store: map<string, Transient>)
    ensures var mails := Sent(newStatus, oldStatus, post, option, dir, site, store);
      && (mails != [] ==>
            Decide(newStatus, oldStatus, post, option, store).Some? &&
            (RecipientRoles(option) != [] || RecipientUsers(option) != []))
      && (Decide(newStatus, oldStatus, post, option, store).Some? &&
          (RecipientRoles(option) != [] || RecipientUsers(option) != []) ==>
            var k := Decide(newStatus, oldStatus, post, option, store).value;
            var recipients := Recipients.ResolveRecipients(RecipientRoles(option), RecipientUsers(option), dir);
            && |mails| == |recipients|
            && forall i :: 0 <= i < |mails| ==>
                 && mails[i].to == recipients[i].email
                 && mails[i].subject == Composer.Subject(Key(k), post, site)
                 && mails[i].message == Composer.Message(Key(k), post, AuthorName(post, dir), site)
                 && mails[i].headers == HtmlHeaders)
  {
    match Decide(newStatus, oldStatus, post, option, store)
    case None =>
    case Some(k) =>
      var recipients := Recipients.ResolveRecipients(RecipientRoles(option), RecipientUsers(option), dir);
      MailsToSpec(recipients, Composer.Subject(Key(k), post, site),
        Composer.Message(Key(k), post, AuthorName(post, dir), site));
  }

  /* ---------- the plugin object ---------- */

  /** The state the handler changes: the transient store and the list of mails
      handed to `wp_mail`. */
  class PostNotifications {
    var transients: map<string, Transient>
    var outbox: seq<Mail>

    constructor ()
      ensures transients == map[] && outbox == []
    {
      transients := map[];
      outbox := [];
    }

    /** `handle_post_status_change`. The option, the directory, the site and
        the clock are what the WordPress calls return during the call. */
    method HandlePostStatusChange(newStatus: string, oldStatus: string, post: Post,
                                  option: OptionValue, dir: Directory, site: Site, now: int)
      modifies this
      ensures transients == StoreAfter(newStatus, oldStatus, post, option, old(transients), now)
      ensures outbox == old(outbox) + Sent(newStatus, oldStatus, post, option, dir, site, old(transients))
    {
      if post.isAutosave || post.isRevision {
        return;
      }

      var enabledNotifications := option.enabledNotifications.GetOr(map[]);
      var recipientRoles := option.recipientRoles.GetOr([]);
      var recipientUsers := option.recipientUsers.GetOr([]);
      var enabledPostTypes := option.enabledPostTypes.GetOr(["post"]);

      if post.postType !in enabledPostTypes {
        return;
      }

      ghost var decision := Decide(newStatus, oldStatus, post, option, transients);
      ghost var sent := Sent(newStatus, oldStatus, post, option, dir, site, transients);
      var notificationType, suppressed := ClassifyTransition(newStatus, oldStatus, post.id, enabledNotifications, now);
      if suppressed {
        assert decision == None;
        return;
      }
      assert notificationType == decision;
      assert transients == StoreAfter(newStatus, oldStatus, post, option, old(transients), now);

      if notificationType.Some? && (|recipientRoles| > 0 || |recipientUsers| > 0) {
        assert sent == Dispatch(post, notificationType.value, recipientRoles, recipientUsers, dir, site);
        SendNotification(post, notificationType.value, recipientRoles, recipientUsers, dir, site);
      } else {
        assert sent == [];
      }
    }

    /** The chain of rules of the handler, with the rate limit of the
        "updated" rule: a post whose marker exists is `suppressed` and
        nothing is written; otherwise the marker is written when "updated"
        is chosen. */
    method ClassifyTransition(newStatus: string, oldStatus: string, postId: nat,
                              enabled: map<string, string>, now: int)
      returns (notificationType: Option<Kind>, suppressed: bool)
      modifies this`transients
      ensures suppressed <==>
        Classify(newStatus, oldStatus, enabled) == Some(Updated) && TransientKey(postId) in old(transients)
      ensures !suppressed ==> notificationType == Classify(newStatus, oldStatus, enabled)
      ensures transients ==
        if !suppressed && notificationType == Some(Updated)
        then old(transients)[TransientKey(postId) := Transient(now, HourInSeconds)]
        else old(transients)
    {
      notificationType, suppressed := None, false;
      if oldStatus != "pending" && newStatus == "pending" && IsOn(enabled, Pending) {
        notificationType := Some(Pending);
      } else if oldStatus != "publish" && newStatus == "publish" && IsOn(enabled, Published) {
        notificationType := Some(Published);
      } else if newStatus == "draft" && oldStatus != "draft" && oldStatus != "auto-draft" && IsOn(enabled, Draft) {
        notificationType := Some(Draft);
      } else if newStatus == "future" && oldStatus != "future" && IsOn(enabled, Scheduled) {
        notificationType := Some(Scheduled);
      } else if oldStatus == "publish" && newStatus == "publish" && IsOn(enabled, Updated) {
        var key := TransientKey(postId);
        if key in transients {
          suppressed := true;
          return;
        }
        notificationType := Some(Updated);
        transients := transients[key := Transient(now, HourInSeconds)];
      } else if newStatus == "trash" && IsOn(enabled, Trashed) {
        notificationType := Some(Trashed);
      }
    }

    /** `send_notification`: resolve the recipients, compose once, and hand
        one mail per recipient to `wp_mail`. */
    method SendNotification(post: Post, kind: Kind, recipientRoles: seq<string>, recipientUsers: seq<int>,
                            dir: Directory, site: Site)
      modifies this`outbox
      ensures outbox == old(outbox) + Dispatch(post, kind, recipientRoles, recipientUsers, dir, site)
    {
      var uniqueRecipients := Recipients.GatherRecipients(recipientRoles, recipientUsers, dir);
      if |uniqueRecipients| == 0 {
        return;
      }

      var authorName := AuthorName(post, dir);
      var subject := Composer.Subject(Key(kind), post, site);
      var message := Composer.Message(Key(kind), post, authorName, site);
      Deliver(uniqueRecipients, subject, message);
    }

    /** The sending loop of `send_notification`: one `wp_mail` call per
        recipient with the same subject, message and headers. */
    method Deliver(recipients: seq<User>, subject: string, message: string)
      modifies this`outbox
      ensures outbox == old(outbox) + MailsTo(recipients, subject, message)
    {
      var headers := HtmlHeaders;
      for i := 0 to |recipients|
        invariant outbox == old(outbox) + MailsTo(recipients[..i], subject, message)
      {
        assert recipients[..i + 1][..i] == recipients[..i];
        outbox := outbox + [Mail(recipients[i].email, subject, message, headers)];
      }
      assert recipients[..|recipients|] == recipients;
    }
  }
}
