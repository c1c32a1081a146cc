/** The SMTP handler: it looks up sending accounts by email, picks the account
    for the next message by a fixed precedence, writes the transport fields of
    the mailer when SMTP is enabled, and filters the sender address and name.
    Every operation receives the `smtp` section of the stored option as it is
    at the time of the call. */
module Smtp {
  import opened Wp
  import Php

  /** `get_smtp_settings`: the `smtp` section of the stored option, or
      `array()` when there is none, under which SMTP stays disabled. */
  function SmtpSettingsOf(option: OptionValue): (r: SmtpSettings)
    ensures option.smtp.Some? ==> r == option.smtp.value
    ensures option.smtp.None? ==> !IsSmtpEnabled(r) && r.accounts == []
  {
    option.smtp.GetOr(NoSmtp)
  }

  /** SMTP is used only when both `enabled` and `host` are non-empty. */
  function IsSmtpEnabled(smtp: SmtpSettings): (r: bool)
    ensures r ==> |smtp.enabled| > 0 && |smtp.host| > 0
  {
    !Php.Empty(smtp.enabled) && !Php.Empty(smtp.host)
  }

  /** `isset($account['email']) && $account['email'] === $email`. */
  predicate HasEmail(a: Account, email: string) {
    a.email == Some(email)
  }

  /** An account's email as `empty()` sees it: an unset email reads as "". */
  function EmailText(a: Account): string {
    a.email.GetOr("")
  }

  /** `e` is the email of one of the configured accounts. */
  predicate IsAccountEmail(accounts: seq<Account>, e: string) {
    exists a :: a in accounts && a.email == Some(e)
  }

  /** `e` is the name of one of the configured accounts. */
  predicate IsAccountName(accounts: seq<Account>, e: string) {
    exists a :: a in accounts && a.name == e
  }

  /* ---------- account lookup ---------- */

  /** The first account whose email is exactly `email`. */
  function FindAccount(accounts: seq<Account>, email: string): (r: Option<Account>)
    ensures r.Some? ==> r.value in accounts && HasEmail(r.value, email)
  {
    if accounts == [] then None
    else if HasEmail(accounts[0], email) then Some(accounts[0])
    else FindAccount(accounts[1..], email)
  }

  /** The lookup finds nothing exactly when no account has the email, and
      otherwise finds the account at the first position that has it. */
  lemma {:induction false} FindAccountSpec(accounts: seq<Account>, email: string)
    ensures FindAccount(accounts, email).None? <==>
      forall i :: 0 <= i < |accounts| ==> !HasEmail(accounts[i], email)
    ensures FindAccount(accounts, email).Some? ==>
      exists i :: 0 <= i < |accounts| && accounts[i] == FindAccount(accounts, email).value &&
        HasEmail(accounts[i], email) && forall j :: 0 <= j < i ==> !HasEmail(accounts[j], email)
  {
    if accounts != [] && !HasEmail(accounts[0], email) {
      var tail := accounts[1..];
      FindAccountSpec(tail, email);
      forall i | 0 <= i < |tail| ensures tail[i] == accounts[i + 1] { }
      if FindAccount(tail, email).Some? {
        var i :| 0 <= i < |tail| && tail[i] == FindAccount(tail, email).value &&
          HasEmail(tail[i], email) && forall j :: 0 <= j < i ==> !HasEmail(tail[j], email);
        assert accounts[i + 1] == FindAccount(accounts, email).value;
        assert forall j :: 0 <= j < i + 1 ==> !HasEmail(accounts[j], email) by {
          forall j | 0 <= j < i + 1 ensures !HasEmail(accounts[j], email) {
            if j > 0 { assert accounts[j] == tail[j - 1]; }
          }
        }
      } else {
        forall i | 0 <= i < |accounts| ensures !HasEmail(accounts[i], email) {
          if i > 0 { assert accounts[i] == tail[i - 1]; }
        }
      }
    }
  }

  /** The default account: the account matching a non-empty
      `default_account`, otherwise the first account, otherwise none. */
  function DefaultAccount(smtp: SmtpSettings): (r: Option<Account>)
    ensures r.None? <==> smtp.accounts == []
    ensures r.Some? ==> r.value in smtp.accounts
    ensures !Php.Empty(smtp.defaultAccount) && FindAccount(smtp.accounts, smtp.defaultAccount).Some? ==>
      r == FindAccount(smtp.accounts, smtp.defaultAccount) && HasEmail(r.value, smtp.defaultAccount)
    ensures (Php.Empty(smtp.defaultAccount) || FindAccount(smtp.accounts, smtp.defaultAccount).None?) && smtp.accounts != [] ==>
      r == Some(smtp.accounts[0])
  {
    if !Php.Empty(smtp.defaultAccount) && FindAccount(smtp.accounts, smtp.defaultAccount).Some?
    then FindAccount(smtp.accounts, smtp.defaultAccount)
    else if smtp.accounts != [] then Some(smtp.accounts[0])
    else None
  }

  /** The account `configure_smtp` uses: the account set for this message,
      then the account matching the current From address, then the default
      account. */
  function ResolveAccount(current: Option<Account>, from: string, smtp: SmtpSettings): (r: Option<Account>)
    ensures current.Some? ==> r == current
    ensures current.None? && FindAccount(smtp.accounts, from).Some? ==>
      r == FindAccount(smtp.accounts, from) && HasEmail(r.value, from)
    ensures current.None? && FindAccount(smtp.accounts, from).None? ==> r == DefaultAccount(smtp)
    ensures r.Some? ==> r == current || r.value in smtp.accounts
    ensures r.None? <==> current.None? && smtp.accounts == []
  {
    if current.Some? then current
    else if FindAccount(smtp.accounts, from).Some? then FindAccount(smtp.accounts, from)
    else DefaultAccount(smtp)
  }

  /* ---------- the transport ---------- */

  /** The PHPMailer fields the handler writes or reads. */
  datatype Transport = Transport(
    mailer: string,
    host: string,
    port: int,
    smtpSecure: string,
    smtpAutoTls: bool,
    smtpAuth: bool,
    username: string,
    password: string,
    from: string,
    fromName: string)

  /** PHPMailer's own defaults, with the sender `wp_mail` set. */
  function NewTransport(from: string, fromName: string): Transport {
    Transport("mail", "localhost", 25, "", true, false, "", "", from, fromName)
  }

  /** The transport after an enabled `configure_smtp` pass that resolved
      `account`. */
  function Configured(t: Transport, smtp: SmtpSettings, account: Option<Account>): (r: Transport)
    ensures r.mailer == "smtp" && r.host == smtp.host
    ensures Php.Empty(smtp.port) ==> r.port == 587
    ensures !Php.Empty(smtp.port) ==> r.port == Php.IntVal(smtp.port)
    ensures Php.Empty(smtp.encryption) ==> r.smtpSecure == "" && !r.smtpAutoTls
    ensures !Php.Empty(smtp.encryption) ==> r.smtpSecure == smtp.encryption && r.smtpAutoTls == t.smtpAutoTls
    ensures r.smtpAuth <==> !Php.Empty(smtp.auth) && account.Some?
    ensures r.smtpAuth ==> r.username == account.value.username && r.password == account.value.password
    ensures !r.smtpAuth ==>
      r.username == t.username && r.password == t.password && r.from == t.from && r.fromName == t.fromName
    ensures r.from != t.from ==> r.smtpAuth && HasEmail(account.value, r.from) && !Php.Empty(r.from)
    ensures r.smtpAuth && !Php.Empty(EmailText(account.value)) ==> HasEmail(account.value, r.from)
    ensures r.fromName != t.fromName ==> r.smtpAuth && r.fromName == account.value.name && !Php.Empty(r.fromName)
    ensures r.smtpAuth && !Php.Empty(account.value.name) ==> r.fromName == account.value.name
  {
    Authenticated(Connected(t, smtp), smtp, account)
  }

  /** The mailer, host, port and encryption settings of a pass. */
  function Connected(t: Transport, smtp: SmtpSettings): (r: Transport)
    ensures r.mailer == "smtp" && r.host == smtp.host
    ensures r.smtpAuth == t.smtpAuth && r.username == t.username && r.password == t.password
    ensures r.from == t.from && r.fromName == t.fromName
  {
    var port := if !Php.Empty(smtp.port) then Php.IntVal(smtp.port) else 587;
    var t1 := t.(mailer := "smtp", host := smtp.host, port := port);
    if !Php.Empty(smtp.encryption) then t1.(smtpSecure := smtp.encryption)
    else t1.(smtpSecure := "", smtpAutoTls := false)
  }

  /** The authentication and sender settings of a pass. */
  function Authenticated(t: Transport, smtp: SmtpSettings, account: Option<Account>): (r: Transport)
    ensures r.mailer == t.mailer && r.host == t.host && r.port == t.port
    ensures r.smtpSecure == t.smtpSecure && r.smtpAutoTls == t.smtpAutoTls
    ensures r.smtpAuth <==> !Php.Empty(smtp.auth) && account.Some?
  {
    if !Php.Empty(smtp.auth) && account.Some? then
      var a := account.value;
      var t1 := t.(smtpAuth := true, username := a.username, password := a.password);
      var t2 := if !Php.Empty(EmailText(a)) then t1.(from := a.email.value) else t1;
      if !Php.Empty(a.name) then t2.(fromName := a.name) else t2
    else
      t.(smtpAuth := false)
  }

  /* ---------- the sender filters ---------- */

  /** `set_from_email`: the current account's email, the input when it
      matches an account, the default account's email, or the input. */
  function FromEmail(email: string, current: Option<Account>, smtp: SmtpSettings): (r: string)
    ensures !IsSmtpEnabled(smtp) ==> r == email
    ensures r == email || (current.Some? && HasEmail(current.value, r)) || IsAccountEmail(smtp.accounts, r)
    ensures r != email ==> !Php.Empty(r)
    ensures IsSmtpEnabled(smtp) && current.Some? && !Php.Empty(EmailText(current.value)) ==> HasEmail(current.value, r)
    ensures (current.None? || Php.Empty(EmailText(current.value))) && FindAccount(smtp.accounts, email).Some? ==> r == email
    ensures (IsSmtpEnabled(smtp) && (current.None? || Php.Empty(EmailText(current.value))) &&
             FindAccount(smtp.accounts, email).None?) ==>
        r == (if DefaultAccount(smtp).Some? && !Php.Empty(EmailText(DefaultAccount(smtp).value))
              then EmailText(DefaultAccount(smtp).value) else email)
  {
    if !IsSmtpEnabled(smtp) then email
    else if current.Some? && !Php.Empty(EmailText(current.value)) then current.value.email.value
    else if FindAccount(smtp.accounts, email).Some? then email
    else
      var d := DefaultAccount(smtp);
      if d.Some? && !Php.Empty(EmailText(d.value)) then d.value.email.value else email
  }

  /** `set_from_name`: the current account's name, the default account's
      name, or the input; unlike the email filter, a provided name does not
      protect itself from the default account's name. */
  function FromName(name: string, current: Option<Account>, smtp: SmtpSettings): (r: string)
    ensures !IsSmtpEnabled(smtp) ==> r == name
    ensures r == name || (current.Some? && r == current.value.name) || IsAccountName(smtp.accounts, r)
    ensures r != name ==> !Php.Empty(r)
    ensures IsSmtpEnabled(smtp) && current.Some? && !Php.Empty(current.value.name) ==> r == current.value.name
    ensures IsSmtpEnabled(smtp) && DefaultAccount(smtp).Some? && !Php.Empty(DefaultAccount(smtp).value.name) ==>
      !Php.Empty(r)
    ensures IsSmtpEnabled(smtp) && (current.None? || Php.Empty(current.value.name)) ==>
      r == (if DefaultAccount(smtp).Some? && !Php.Empty(DefaultAccount(smtp).value.name)
            then DefaultAccount(smtp).value.name else name)
  {
    if !IsSmtpEnabled(smtp) then name
    else if current.Some? && !Php.Empty(current.value.name) then current.value.name
    else
      var d := DefaultAccount(smtp);
      if d.Some? && !Php.Empty(d.value.name) then d.value.name else name
  }

  /* ---------- the objects ---------- */

  /** The PHPMailer object handed to the `phpmailer_init` action. */
  class PhpMailer {
    var mailer: string
    var host: string
    var port: int
    var smtpSecure: string
    var smtpAutoTls: bool
    var smtpAuth: bool
    var username: string
    var password: string
    var from: string
    var fromName: string

    function State(): Transport
      reads this
    {
      Transport(mailer, host, port, smtpSecure, smtpAutoTls, smtpAuth, username, password, from, fromName)
    }

    /** A mailer with PHPMailer's own defaults and the sender `wp_mail` set. */
    constructor (from: string, fromName: string)
      ensures State() == NewTransport(from, fromName)
    {
      mailer := "mail";
      host := "localhost";
      port := 25;
      smtpSecure := "";
      smtpAutoTls := true;
      smtpAuth := false;
      username := "";
      password := "";
      this.from := from;
      this.fromName := fromName;
    }
  }

  /** The handler object; its only state is the single-use account set for
      the next message. */
  class SmtpHandler {
    var currentAccount: Option<Account>

    constructor ()
      ensures currentAccount.None?
    {
      currentAccount := None;
    }

    /** `get_account_by_email`: a scan with early return. */
    method GetAccountByEmail(email: string, smtp: SmtpSettings) returns (account: Option<Account>)
      ensures account == FindAccount(smtp.accounts, email)
    {
      var accounts := smtp.accounts;
      var i := 0;
      while i < |accounts|
        invariant 0 <= i <= |accounts|
        invariant FindAccount(accounts, email) == FindAccount(accounts[i..], email)
      {
        assert accounts[i..][0] == accounts[i];
        if accounts[i].email.Some? && accounts[i].email.value == email {
          return Some(accounts[i]);
        }
        assert accounts[i..][1..] == accounts[i + 1..];
        i := i + 1;
      }
      return None;
    }

    /** `get_default_account`. */
    method GetDefaultAccount(smtp: SmtpSettings) returns (account: Option<Account>)
      ensures account == DefaultAccount(smtp)
    {
      var defaultEmail := smtp.defaultAccount;
      if !Php.Empty(defaultEmail) {
        account := GetAccountByEmail(defaultEmail, smtp);
        if account.Some? {
          return;
        }
      }
      if smtp.accounts != [] {
        return Some(smtp.accounts[0]);
      }
      return None;
    }

    /** `set_account`: the account for the next message; an unknown email
        clears it. */
    method SetAccount(email: string, smtp: SmtpSettings)
      modifies this
      ensures currentAccount == FindAccount(smtp.accounts, email)
    {
      currentAccount := GetAccountByEmail(email, smtp);
    }

    /** `configure_smtp`: nothing changes while SMTP is disabled; otherwise
        the transport is configured with the resolved account and the
        account set for this message is used up. */
    method ConfigureSmtp(phpmailer: PhpMailer, smtp: SmtpSettings)
      modifies this, phpmailer
      ensures !IsSmtpEnabled(smtp) ==>
        phpmailer.State() == old(phpmailer.State()) && currentAccount == old(currentAccount)
      ensures IsSmtpEnabled(smtp) ==>
        && phpmailer.State() ==
             Configured(old(phpmailer.State()), smtp, ResolveAccount(old(currentAccount), old(phpmailer.from), smtp))
        && currentAccount.None?
    {
      if !IsSmtpEnabled(smtp) {
        return;
      }
      SetConnection(phpmailer, smtp);
      var account := AccountForMessage(phpmailer.from, smtp);
      SetAuthentication(phpmailer, smtp, account);
      currentAccount := None;
    }

    /** The first half of `configure_smtp`: mailer, host, port and
        encryption. */
    method SetConnection(phpmailer: PhpMailer, smtp: SmtpSettings)
      modifies phpmailer
      ensures phpmailer.State() == Connected(old(phpmailer.State()), smtp)
    {
      phpmailer.mailer := "smtp";  // isSMTP()
      phpmailer.host := smtp.host;
      phpmailer.port := if !Php.Empty(smtp.port) then Php.IntVal(smtp.port) else 587;

      if !Php.Empty(smtp.encryption) {
        phpmailer.smtpSecure := smtp.encryption;
      } else {
        phpmailer.smtpSecure := "";
        phpmailer.smtpAutoTls := false;
      }
    }

    /** The authentication block of `configure_smtp`. */
    method SetAuthentication(phpmailer: PhpMailer, smtp: SmtpSettings, account: Option<Account>)
      modifies phpmailer
      ensures phpmailer.State() == Authenticated(old(phpmailer.State()), smtp, account)
    {
      if !Php.Empty(smtp.auth) && account.Some? {
        var a := account.value;
        phpmailer.smtpAuth := true;
        phpmailer.username := a.username;
        phpmailer.password := a.password;
        if !Php.Empty(EmailText(a)) {
          phpmailer.from := a.email.value;
        }
        if !Php.Empty(a.name) {
          phpmailer.fromName := a.name;
        }
      } else {
        phpmailer.smtpAuth := false;
      }
    }

    /** The account lookup of `configure_smtp`: the account set for this
        message, then the account matching the From address, then the
        default account. */
    method AccountForMessage(from: string, smtp: SmtpSettings) returns (account: Option<Account>)
      ensures account == ResolveAccount(currentAccount, from, smtp)
    {
      account := currentAccount;
      if account.None? {
        account := GetAccountByEmail(from, smtp);
      }
      if account.None? {
        account := GetDefaultAccount(smtp);
      }
    }

    /** `set_from_email`, the `wp_mail_from` filter. */
    method SetFromEmail(email: string, smtp: SmtpSettings) returns (r: string)
      ensures r == FromEmail(email, currentAccount, smtp)
    {
      if !IsSmtpEnabled(smtp) {
        return email;
      }
      if currentAccount.Some? && !Php.Empty(EmailText(currentAccount.value)) {
        return currentAccount.value.email.value;
      }
      var account := GetAccountByEmail(email, smtp);
      if account.Some? {
        return email;
      }
      var defaultAccount := GetDefaultAccount(smtp);
      if defaultAccount.Some? && !Php.Empty(EmailText(defaultAccount.value)) {
        return defaultAccount.value.email.value;
      }
      return email;
    }

    /** `set_from_name`, the `wp_mail_from_name` filter. */
    method SetFromName(name: string, smtp: SmtpSettings) returns (r: string)
      ensures r == FromName(name, currentAccount, smtp)
    {
      if !IsSmtpEnabled(smtp) {
        return name;
      }
      if currentAccount.Some? && !Php.Empty(currentAccount.value.name) {
        return currentAccount.value.name;
      }
      var defaultAccount := GetDefaultAccount(smtp);
      if defaultAccount.Some? && !Php.Empty(defaultAccount.value.name) {
        return defaultAccount.value.name;
      }
      return name;
    }
  }

  /** An account set with `set_account` is used by the next enabled
      `configure_smtp` pass, which then forgets it: the pass for the message
      after it resolves the account from the From address and the defaults
      alone. Each message gets a mailer with the sender `wp_mail` set. */
  method SetAccountIsSingleUse(email: string, from: string, fromName: string, smtp: SmtpSettings)
    returns (first: Transport, second: Transport)
    ensures !IsSmtpEnabled(smtp) ==> first == NewTransport(from, fromName) && second == first
    ensures IsSmtpEnabled(smtp) && FindAccount(smtp.accounts, email).Some? ==>
      first == Configured(NewTransport(from, fromName), smtp, FindAccount(smtp.accounts, email))
    ensures IsSmtpEnabled(smtp) && FindAccount(smtp.accounts, email).None? ==>
      first == Configured(NewTransport(from, fromName), smtp, ResolveAccount(None, from, smtp))
    ensures IsSmtpEnabled(smtp) ==>
      second == Configured(NewTransport(from, fromName), smtp, ResolveAccount(None, from, smtp))
  {
    var handler := new SmtpHandler();
    handler.SetAccount(email, smtp);
    var mailer := new PhpMailer(from, fromName);
    handler.ConfigureSmtp(mailer, smtp);
    first := mailer.State();
    var nextMailer := new PhpMailer(from, fromName);
    handler.ConfigureSmtp(nextMailer, smtp);
    second := nextMailer.State();
  }
}
