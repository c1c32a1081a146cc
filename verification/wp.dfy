/** The data the notification core reads from WordPress: users and roles,
    the post whose status changed, site information, the stored plugin
    option and its SMTP section. Every WordPress lookup the core makes is a
    field of one of these values. */
module Wp {

  datatype Option<T> = None | Some(value: T)
  {
    function GetOr(default: T): T {
      if Some? then value else default
    }
  }

  /** The six notification kinds, in the order the status handler tests them. */
  datatype Kind = Pending | Published | Draft | Scheduled | Updated | Trashed

  /** The key of a kind in `enabled_notifications`, and the notification type
      string passed to the composer. */
  function Key(k: Kind): string {
    match k
    case Pending => "pending"
    case Published => "published"
    case Draft => "draft"
    case Scheduled => "scheduled"
    case Updated => "updated"
    case Trashed => "trashed"
  }

  /** The kind a notification type string names, if any. */
  function KindOf(s: string): (r: Option<Kind>)
    ensures r.Some? ==> Key(r.value) == s
  {
    if s == "pending" then Some(Pending)
    else if s == "published" then Some(Published)
    else if s == "draft" then Some(Draft)
    else if s == "scheduled" then Some(Scheduled)
    else if s == "updated" then Some(Updated)
    else if s == "trashed" then Some(Trashed)
    else None
  }

  /** The six allowed keys of `enabled_notifications`. */
  const AllowedKinds: seq<string> := ["pending", "published", "draft", "scheduled", "updated", "trashed"]

  /** A user record as `get_users` returns it with fields ID, user_email and
      display_name. */
  datatype User = User(id: int, email: string, displayName: string)

  /** The user directory: the keys of `wp_roles()->get_names()`, the result of
      `get_users(['role' => r])` for each role, and `get_userdata(id)`. */
  datatype Directory = Directory(
    roleNames: seq<string>,
    roleMembers: map<string, seq<User>>,
    users: map<int, User>)

  /** `get_users(['role' => role])`: no users when the directory lists none. */
  function UsersInRole(dir: Directory, role: string): seq<User> {
    if role in dir.roleMembers then dir.roleMembers[role] else []
  }

  /** The post snapshot the core reads: the fields of `$post` it uses, with the
      results of `get_permalink`, `get_edit_post_link`, `get_the_date`,
      `get_the_time`, `wp_is_post_autosave` and `wp_is_post_revision`. */
  datatype Post = Post(
    id: nat,
    title: string,
    postType: string,
    author: int,
    permalink: string,
    editLink: string,
    date: string,
    time: string,
    isAutosave: bool,
    isRevision: bool)

  /** Site information: `get_bloginfo('name')`, `get_bloginfo('url')`, the
      base of `admin_url()`, the singular labels of registered post types and
      the names of the public post types. */
  datatype Site = Site(
    name: string,
    url: string,
    adminUrl: string,
    typeLabels: map<string, string>,
    publicPostTypes: seq<string>)

  /** One configured sending account. `email` is None when the key is unset;
      an unset name, username or password reads as "". */
  datatype Account = Account(email: Option<string>, name: string, username: string, password: string)

  /** The `smtp` section of the plugin option. Scalar settings keep the text
      they were stored as; an unset key reads as "". */
  datatype SmtpSettings = SmtpSettings(
    enabled: string,
    host: string,
    port: string,
    encryption: string,
    auth: string,
    accounts: seq<Account>,
    defaultAccount: string)

  /** `array()`, what the SMTP handler reads when the option has no `smtp` key. */
  const NoSmtp := SmtpSettings("", "", "", "", "", [], "")

  /** The option `post_notifications_settings`; a None field is an unset key. */
  datatype OptionValue = OptionValue(
    enabledNotifications: Option<map<string, string>>,
    recipientRoles: Option<seq<string>>,
    recipientUsers: Option<seq<int>>,
    enabledPostTypes: Option<seq<string>>,
    smtp: Option<SmtpSettings>)

  /** `get_option(..., array())` when the option does not exist. */
  const NoOption := OptionValue(None, None, None, None, None)
}
