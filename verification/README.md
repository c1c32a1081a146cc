# Post Notifications: a verified model of the notification core

This project models the decision logic of the WordPress plugin
"Post Notifications" in Dafny and proves properties about it. The plugin
mails configured users when a post changes status. The model covers five
parts of it:

- **The status handler** (`notifications.dfy`, module `Notifications`). It
  classifies a transition `(new status, old status)` into at most one of
  six kinds: pending, published, draft, scheduled, updated or trashed. The
  rules are tested in a fixed order and each is gated by its toggle.
  "Updated" notifications are rate-limited by a one-hour transient
  `post_notification_sent_<ID>`. The class `PostNotifications` holds the
  transient store and the list of `wp_mail` calls (`outbox`).
  `HandlePostStatusChange` and `SendNotification` are proved against the
  functions `Decide`, `StoreAfter`, `Sent` and `Dispatch`.
- **The recipient resolver** (`recipients.dfy`, module `Recipients`). It
  collects users of registered roles, then explicitly listed users that
  exist, and removes duplicates by user ID, keeping the first occurrence.
  The loops of `get_users_by_roles`, `get_users_by_ids` and
  `send_notification` are methods proved against `UniqueById`, `RoleUsers`,
  `IdUsers` and `ResolveRecipients`.
- **The email composer** (`composer.dfy`, module `Composer`). It builds the
  subject line and the HTML body as pure strings: the "(no title)"
  placeholder, CR and LF replaced by spaces, per-kind templates, the fixed
  wrapper, and `esc_html` on title, type label and author.
- **The SMTP handler** (`smtp.dfy`, module `Smtp`). It looks up accounts by
  exact email and resolves the account for a message by precedence. It
  configures the PHPMailer transport fields and filters the sender address
  and name. The class `SmtpHandler` holds the single-use `currentAccount`.
  The class `PhpMailer` holds the transport fields.
- **The settings sanitizer** (`settings.dfy`, module `Settings`). It rejects
  a submission without a valid nonce or without `manage_options`.
  Otherwise it whitelists toggle keys and filters roles, post types and user
  IDs against the registries, with defaults for missing fields.

Two support modules hold the rest:

- `wp.dfy` (module `Wp`) holds the data the core reads from WordPress as
  values: users and roles, the post snapshot, site information, and the
  stored option with its `smtp` section.
- `php.dfy` (module `Php`) holds the PHP built-ins whose exact behaviour
  matters: `empty()` on strings, `absint`, the decimal text of an integer,
  `intval` on a string, and `sanitize_text_field`.

Every WordPress lookup is a parameter:

- `get_option` becomes an `OptionValue`.
- `get_users`, `get_userdata` and `wp_roles` become a `Directory`.
- `get_bloginfo`, `admin_url`, `get_post_type_object` and `get_post_types`
  become a `Site`.
- `get_permalink`, `get_edit_post_link`, `get_the_date`, `get_the_time`,
  `wp_is_post_autosave` and `wp_is_post_revision` are fields of `Post`.
- `time()` becomes the parameter `now`.

`post-notifications-old.php` holds a second copy of `sanitize_settings`
(lines 141-222). It is modelled once, from `includes/admin/class-settings.php`.

## Model

| member | source | states |
|---|---|---|
| Php.NatToDecimalInjective | post-notifications-old.php:670 | distinct post IDs have distinct decimal texts, so the transient keys of two posts never collide |
| Php.IntValOfDecimal | includes/class-smtp.php:114 | `intval` reads back the decimal text of every non-negative integer, so a port stored as digits is used as that number |
| Php.SanitizeKeepsPlainText | includes/admin/class-settings.php:96-97 | a role or post type name without white space passes through `sanitize_text_field` unchanged |
| Php.AbsInt | post-notifications-old.php:785 | `absint` is the magnitude of its argument, never negative |
| Php.IntVal | includes/class-smtp.php:114 | `intval` of a string is negative only when the string holds a minus sign |
| Php.SanitizeTextField | includes/admin/class-settings.php:96-97 | the sanitized text neither starts nor ends with white space |
| Recipients.UniqueByIdSpec | post-notifications-old.php:699-707 | deduplication yields unique IDs and the same set of IDs as the input; each kept user is the first with its ID; kept users are in input order |
| Recipients.UniqueById | post-notifications-old.php:699-707 | the deduplicated list has unique IDs and the same ID set as its input |
| Recipients.DedupFromAppend | post-notifications-old.php:694-707 | deduplicating a concatenation keeps the first part's users, then the second part's users whose IDs the first part lacks |
| Recipients.UniqueByIdIdempotent | post-notifications-old.php:760-769 | deduplicating an already deduplicated list changes nothing |
| Recipients.UniqueByIdMerge | post-notifications-old.php:691-707 | deduplicating the role users first (inside `get_users_by_roles`) and then the merged list gives the same recipients as one deduplication of the concatenation |
| Recipients.RemoveDuplicates | post-notifications-old.php:700-707 | the `$user_ids` loop returns the deduplicated list, with unique IDs and the same ID set as its input |
| Recipients.RoleUsers | post-notifications-old.php:740-758 | every user collected by role is a member of some requested role that is registered |
| Recipients.RoleUsersMembers | post-notifications-old.php:746-757 | a user is collected by role exactly when some requested role is registered and lists the user; unregistered roles are skipped, not fatal |
| Recipients.IdUsers | post-notifications-old.php:777-800 | at most one user per listed ID, and every user collected is an existing user |
| Recipients.IdUsersMembers | post-notifications-old.php:784-797 | a user is collected by ID exactly when some listed ID has a positive `absint` naming that user; at most one user per listed ID |
| Recipients.ResolveRecipients | post-notifications-old.php:689-707 | the recipients have unique IDs, exactly the IDs of the role users and listed users together |
| Recipients.ResolveRecipientsOrder | post-notifications-old.php:689-707 | the recipients are the deduplicated role users followed by the listed users whose IDs are new, and all recipient IDs are unique |
| Recipients.GetUsersByRoles | post-notifications-old.php:740-772 | the loop with `continue` and the dedup loop return the deduplicated users of the registered requested roles |
| Recipients.GetUsersByIds | post-notifications-old.php:777-800 | the loop returns, in order, the existing users of the IDs with positive `absint`, and nothing for an empty list |
| Recipients.GatherRecipients | post-notifications-old.php:690-707 | role users, then listed users only when the list is non-empty, deduplicated, equal the resolved recipients |
| Composer.EscHtmlHasNoMarkup | post-notifications-old.php:843-851 | escaped text contains none of `<`, `>`, `"`, `'`, and every `&` in it opens one of the five entities, so title, type and author can inject neither markup nor entities |
| Composer.UnescapeEscHtml | post-notifications-old.php:843-851 | escaping loses nothing: decoding the five entities recovers the original text |
| Composer.EscHtml | post-notifications-old.php:843-851 | escaping never shortens text, and leaves text without the five special characters unchanged |
| Composer.SubjectTitleSpec | post-notifications-old.php:807-810 | the subject title has the length of the title (or "(no title)") with every CR and every LF replaced by one space, so CRLF yields two spaces and no line break remains |
| Composer.Subject | post-notifications-old.php:805-822 | every subject starts with the bracketed site name and a space |
| Composer.SubjectSpec | post-notifications-old.php:805-822 | the subject starts with "[site] "; a known kind ends with the cleaned title; an unknown type gives "[site] Post notification"; no line break unless the site name has one |
| Composer.Message | post-notifications-old.php:955-964 | every body starts with the fixed DOCTYPE/body head and is at least as long as head and footer together |
| Composer.MessageSpec | post-notifications-old.php:827-965 | the body starts with the DOCTYPE/body head and ends with the fixed footer; an unknown type yields head and footer alone; a known kind contains the Title, Type and Author fields, each `esc_html`-escaped |
| Notifications.ClassifyIsFirstMatch | post-notifications-old.php:658-678 | the if/elseif chain equals testing pending, published, draft, scheduled, updated, trashed in that order and taking the first rule that fires |
| Notifications.Classify | post-notifications-old.php:660-678 | a chosen kind always has its status condition met and its toggle set to "1" |
| Notifications.StatusConditionsExclusive | post-notifications-old.php:660-678 | no transition satisfies the status conditions of two different rules |
| Notifications.ClassifySpec | post-notifications-old.php:658-678 | the chain yields a kind exactly when that kind's status condition holds and its toggle is "1", and nothing exactly when no rule fires |
| Notifications.TransientKeyInjective | post-notifications-old.php:670-675 | two posts never share a rate-limit transient key |
| Notifications.Decide | post-notifications-old.php:639-678 | a kind is chosen only for a watched post whose rule fires, and "updated" only when the post has no marker |
| Notifications.DecideSpec | post-notifications-old.php:639-678 | a kind is chosen exactly for a non-autosave, non-revision post of an enabled type whose rule fires; "updated" only when the post has no marker yet |
| Notifications.NoOptionSendsNothing | post-notifications-old.php:645-650 | with no stored option every toggle defaults to off, so no status change sends mail or writes a marker |
| Notifications.UnwatchedPostIsIgnored | post-notifications-old.php:640-655 | an autosave, a revision or a post of a type not enabled causes no mail and no transient write |
| Notifications.StoreAfter | post-notifications-old.php:668-675 | the handler never removes a transient and changes none but the post's own marker |
| Notifications.StoreAfterSpec | post-notifications-old.php:668-675 | only the post's own marker is ever written, with value `now` and lifetime 3600 seconds, and it is written exactly when "updated" is chosen |
| Notifications.RepeatedUpdateIsSuppressed | post-notifications-old.php:668-675 | while the marker of a first "updated" notification is present, a second publish-to-publish change of the post sends nothing and writes nothing |
| Notifications.RateLimitIsPerPost | post-notifications-old.php:670-675 | writing one post's marker never changes the decision for another post |
| Notifications.MailsToSpec | post-notifications-old.php:728-734 | one mail per recipient, addressed to that recipient, all with the same subject, message and HTML headers |
| Notifications.Dispatch | post-notifications-old.php:689-735 | a notification produces exactly one mail per resolved recipient |
| Notifications.Sent | post-notifications-old.php:680-683 | mail goes out only when a kind was chosen and a recipient role or user is configured |
| Notifications.SentSpec | post-notifications-old.php:680-734 | mail goes out only for a chosen kind and a non-empty role or user setting, and then exactly one mail per resolved recipient, in order, with the composer's subject and body for that kind |
| Notifications.PostNotifications.HandlePostStatusChange | post-notifications-old.php:639-684 | the new transient store is `StoreAfter` of the old one and the mails appended are `Sent` for the old store |
| Notifications.PostNotifications.ClassifyTransition | post-notifications-old.php:658-678 | the rule chain returns the chosen kind; it stops early, writing nothing, exactly when "updated" fires and the post's marker exists, and it writes the marker `(now, 3600)` exactly when it chooses "updated" |
| Notifications.PostNotifications.SendNotification | post-notifications-old.php:689-735 | appends exactly the mails of `Dispatch`: one per resolved recipient, nothing when no recipient remains |
| Notifications.PostNotifications.Deliver | post-notifications-old.php:728-734 | the sending loop appends one mail per recipient, in order |
| Smtp.FindAccount | includes/class-smtp.php:52-63 | a found account is among the accounts and has exactly the requested email |
| Smtp.FindAccountSpec | includes/class-smtp.php:52-63 | nothing is found exactly when no account has the email; otherwise the account at the first position with that email is found |
| Smtp.SmtpSettingsOf | includes/class-smtp.php:36-39 | the `smtp` section of the option, and when the option has none, settings under which SMTP is disabled and no account exists |
| Smtp.IsSmtpEnabled | includes/class-smtp.php:44-47 | SMTP counts as enabled only when both `enabled` and `host` are set to a non-empty value |
| Smtp.DefaultAccount | includes/class-smtp.php:68-87 | the first account whose email is a non-empty `default_account` if there is one, otherwise the first account, and none only for an empty account list |
| Smtp.ResolveAccount | includes/class-smtp.php:124-133 | precedence: the account set for the message, then the first account whose email is the From address, then the default account; the result is the set account or a configured one, and none only when neither exists |
| Smtp.Configured | includes/class-smtp.php:107-152 | mailer "smtp" and the host; port `intval` or 587 when empty; empty encryption clears `SMTPSecure` and turns off `SMTPAutoTLS`; auth on exactly when `auth` is set and an account resolved, then credentials from the account; From and FromName change only to the account's non-empty email or name, and only with auth on |
| Smtp.Connected | includes/class-smtp.php:107-122 | the connection writes set the mailer to SMTP and the host, and leave the authentication and sender fields as they were |
| Smtp.Authenticated | includes/class-smtp.php:135-152 | the authentication writes leave mailer, host, port and encryption as they were, and turn auth on exactly when `auth` is set and an account resolved |
| Smtp.FromEmail | includes/class-smtp.php:161-184 | unchanged while SMTP is disabled; otherwise the current account's non-empty email wins, then an input matching an account is kept, then the default account's non-empty email is used, and only failing all three is the input returned |
| Smtp.FromName | includes/class-smtp.php:189-206 | unchanged while SMTP is disabled; otherwise the current account's non-empty name wins, then the default account's non-empty name replaces even a provided name, and only failing both is the input returned |
| Smtp.SmtpHandler.GetAccountByEmail | includes/class-smtp.php:52-63 | the scan with early return finds the first account with the email |
| Smtp.SmtpHandler.GetDefaultAccount | includes/class-smtp.php:68-87 | returns the default account |
| Smtp.SmtpHandler.SetAccount | includes/class-smtp.php:93-95 | the current account becomes the account with the email, and none for an unknown email |
| Smtp.SmtpHandler.ConfigureSmtp | includes/class-smtp.php:100-156 | while disabled, transport and current account are unchanged; otherwise the transport is `Configured` with the resolved account and the current account is cleared |
| Smtp.SmtpHandler.SetConnection | includes/class-smtp.php:107-122 | the mailer, host, port and encryption writes |
| Smtp.SmtpHandler.AccountForMessage | includes/class-smtp.php:124-133 | the three-step account lookup returns `ResolveAccount` |
| Smtp.SmtpHandler.SetAuthentication | includes/class-smtp.php:135-152 | the authentication and sender writes |
| Smtp.SmtpHandler.SetFromEmail | includes/class-smtp.php:161-184 | the filter with early returns returns `FromEmail` |
| Smtp.SmtpHandler.SetFromName | includes/class-smtp.php:189-206 | the filter with early returns returns `FromName` |
| Smtp.SetAccountIsSingleUse | includes/class-smtp.php:93-155 | after `set_account` with a known email, the next enabled `configure_smtp` pass authenticates with that account; the pass for the following message resolves from the From address and the defaults only, because the first pass cleared the account; while disabled neither pass changes the mailer |
| Settings.KeepAllowedKindsSpec | includes/admin/class-settings.php:79-89 | a toggle key is kept exactly when it is one of the six allowed kinds and was submitted, and every kept value is "1" whatever was submitted |
| Settings.KeepAllowedKinds | includes/admin/class-settings.php:79-89 | every kept toggle key is one of the six allowed kinds, and every kept value is "1" |
| Settings.MapFilterSpec | includes/admin/class-settings.php:92-131 | each filter keeps only accepted values, and keeps a value exactly when it is accepted and some entry maps to it |
| Settings.MapFilterAppend | includes/admin/class-settings.php:92-131 | each filter keeps input order: filtering two consecutive parts gives the two filtered parts in turn |
| Settings.KeepRegisteredSpec | includes/admin/class-settings.php:92-117 | every kept role or post type is registered, a name is kept exactly when it is registered and some entry sanitizes to it, and input order is kept |
| Settings.KeepRegistered | includes/admin/class-settings.php:92-117 | every kept role or post type is registered, and no more names are kept than were submitted |
| Settings.KeepRegisteredOfRegistered | includes/admin/class-settings.php:106-117 | clean registered names are all kept, unchanged and in order |
| Settings.KeepExistingUsersSpec | includes/admin/class-settings.php:120-131 | every kept ID is positive and names an existing user, an ID is kept exactly when some entry has it as its `absint`, and input order is kept |
| Settings.KeepExistingUsers | includes/admin/class-settings.php:120-131 | every kept ID is positive and names an existing user, and no more IDs are kept than were submitted |
| Settings.KeepExistingUsersOfDecimals | includes/admin/class-settings.php:120-131 | submitting the decimal IDs of existing users keeps all of them, in order |
| Settings.Sanitized | includes/admin/class-settings.php:78-133 | an accepted submission yields exactly the four keys and no `smtp`; missing fields default to no toggles, no roles, `['post']` and no users |
| Settings.SanitizeSettings | includes/admin/class-settings.php:53-134 | a missing or failed nonce returns the stored option with error "nonce_failed"; a user without `manage_options` gets the stored option with "permission_denied"; otherwise the result is `Sanitized` |
| Settings.KeepAllowedKindsLoop | includes/admin/class-settings.php:79-89 | the toggle loop returns the kept toggles |
| Settings.KeepRegisteredLoop | includes/admin/class-settings.php:92-117 | the role and post type loops return the kept names |
| Settings.KeepExistingUsersLoop | includes/admin/class-settings.php:120-131 | the user loop returns the kept IDs |
| Settings.SanitizedToggles | includes/admin/class-settings.php:79-89 | after an accepted submission, the status handler sees a kind's toggle on exactly when that kind's key was submitted |

## Left out

- `send_test_email` (includes/class-smtp.php:211-259) is not modelled. It is AJAX and JSON plumbing around one live `wp_mail` call.
- The admin views and both `render_settings_page` methods are not modelled. They render forms and have no decision logic.
- Hook registration, the singleton and the activation and uninstall option writes are not modelled.
- `wp_mail` is a recorded call in `outbox`. Its return value, PHPMailer's sending and transport errors are not modelled; the handler ignores the return value.
- Notifications.Transient: the lifetime is recorded but expiry is not modelled, because the model has no clock beyond `now`. A marker stays present until the store is replaced.
- Concurrent requests racing on the same transient are not modelled.
- `apply_filters` on subject, message and recipients (post-notifications-old.php:724-726) is the identity.
- `__()` is the identity: every text is the English original.
- `esc_url` is the identity: links, edit links and the site URL are taken as already escaped.
- `add_settings_error` is modelled only as the returned error code; its message text is left out.
- Notifications.IsOn: a toggle is on when its stored value is the string "1". PHP's loose `== '1'` would also accept values such as integer 1 or "01". The sanitizer only ever stores "1".
- Php.IntVal: leading white space, sign and digits only. Exponents, hexadecimal forms, float strings and the saturation of `intval` at the platform's integer limits are not modelled.
- Php.SanitizeTextField: only white space folding and trimming. Tag stripping, percent-encoded octets and invalid UTF-8 removal are not modelled.
- Composer.EscHtml: every `&` is encoded, including one that already starts an entity. WordPress does not double-encode existing entities, and it also checks UTF-8, which is not modelled here.
- Wp.Account: every stored account is a truthy value. An account stored as an empty array, which PHP treats as false, is not modelled.
- Settings.Submission: a field that is missing or is not an array is one case, None. Non-string entries and integer keys in `enabled_notifications` are not modelled; an integer key never matches the allowed keys under strict `in_array`.
- Wp.User: a user's ID is one number, whether the user comes from a role lookup or an ID lookup. In WordPress `get_users` with a `fields` list may give the ID as a numeric string while `get_userdata` gives an integer; strict `in_array` would then keep a user who is both in a role and listed twice. The model assumes both lookups give the same type.
- Settings.Sanitized: the `smtp` section of a submission is dropped, as the code does. How the SMTP tab's form saves its settings (the views and `options.php`) is not part of this model.
- Wp.Post: the post ID is a natural number and the other post fields are snapshots taken when the handler runs.
