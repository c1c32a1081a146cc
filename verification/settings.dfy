/** The settings sanitizer: the callback that validates a submitted settings
    form before it replaces the stored option. It rejects the whole
    submission without a valid nonce or the `manage_options` capability, and
    otherwise whitelists notification keys and filters roles, post types and
    user IDs against the registries, with defaults for missing fields. */
module Settings {
  import opened Wp
  import Php
  import Notifications

  /** What the request carries besides the form: whether `_wpnonce` is set,
      whether `wp_verify_nonce` accepts it, and whether the current user can
      `manage_options`. */
  datatype Request = Request(hasNonce: bool, nonceVerifies: bool, canManageOptions: bool)

  /** A submitted form. A None field is a key that is missing or whose value
      is not an array. `enabledNotifications` holds the submitted key/value
      pairs in order; `smtp` stands for any key the sanitizer does not know. */
  datatype Submission = Submission(
    enabledNotifications: Option<seq<(string, string)>>,
    recipientRoles: Option<seq<string>>,
    enabledPostTypes: Option<seq<string>>,
    recipientUsers: Option<seq<string>>,
    smtp: Option<SmtpSettings>)

  /* ---------- the four filters ---------- */

  /** The toggles kept from the submitted pairs: each allowed key set to "1",
      whatever value was submitted. */
  function KeepAllowedKinds(pairs: seq<(string, string)>): (r: map<string, string>)
    ensures forall key :: key in r ==> key in AllowedKinds && r[key] == "1"
  {
    if pairs == [] then map[]
    else
      var kept := KeepAllowedKinds(pairs[..|pairs| - 1]);
      var key := pairs[|pairs| - 1].0;
      if key in AllowedKinds then kept[key := "1"] else kept
  }

  /** Each item transformed by `f` and kept, in order, when `keep` accepts
      the result: the shape of the three list loops of the sanitizer. */
  function MapFilter<T, U>(items: seq<T>, f: T -> U, keep: U -> bool): (r: seq<U>)
    ensures |r| <= |items|
    ensures forall j :: 0 <= j < |r| ==> keep(r[j])
  {
    if items == [] then []
    else
      var kept := MapFilter(items[..|items| - 1], f, keep);
      var x := f(items[|items| - 1]);
      if keep(x) then kept + [x] else kept
  }

  /** Every kept value is accepted, and a value is kept exactly when it is
      accepted and some item maps to it. */
  lemma {:induction false} MapFilterSpec<T, U>(items: seq<T>, f: T -> U, keep: U -> bool)
    ensures forall j :: 0 <= j < |MapFilter(items, f, keep)| ==> keep(MapFilter(items, f, keep)[j])
    ensures forall x :: x in MapFilter(items, f, keep) ==> keep(x) && exists i :: 0 <= i < |items| && f(items[i]) == x
    ensures forall i :: 0 <= i < |items| && keep(f(items[i])) ==> f(items[i]) in MapFilter(items, f, keep)
    ensures |MapFilter(items, f, keep)| <= |items|
  {
    if items != [] {
      var init := items[..|items| - 1];
      MapFilterSpec(init, f, keep);
      forall i | 0 <= i < |items| && keep(f(items[i]))
        ensures f(items[i]) in MapFilter(items, f, keep)
      {
        if i < |init| {
          assert init[i] == items[i];
        }
      }
      forall x | x in MapFilter(items, f, keep)
        ensures exists i :: 0 <= i < |items| && f(items[i]) == x
      {
        if x != f(items[|items| - 1]) {
          assert x in MapFilter(init, f, keep);
          var i :| 0 <= i < |init| && f(init[i]) == x;
          assert items[i] == init[i];
        }
      }
    }
  }

  /** Filtering keeps the input order: the values kept from two consecutive
      parts of the input are the values kept from each part, in turn. */
  lemma {:induction false} MapFilterAppend<T, U>(a: seq<T>, b: seq<T>, f: T -> U, keep: U -> bool)
    ensures MapFilter(a + b, f, keep) == MapFilter(a, f, keep) + MapFilter(b, f, keep)
    decreases |b|
  {
    if b == [] {
      assert a + b == a;
    } else {
      var init := b[..|b| - 1];
      assert (a + b)[..|a + b| - 1] == a + init;
      MapFilterAppend(a, init, f, keep);
    }
  }

  /** Items that `f` leaves unchanged and `keep` accepts are all kept, in
      order. */
  lemma {:induction false} MapFilterKeepsAccepted<T>(items: seq<T>, f: T -> T, keep: T -> bool)
    requires forall i :: 0 <= i < |items| ==> f(items[i]) == items[i] && keep(items[i])
    ensures MapFilter(items, f, keep) == items
  {
    if items != [] {
      MapFilterKeepsAccepted(items[..|items| - 1], f, keep);
    }
  }

  /** Names passed through `sanitize_text_field` and kept, in order, when the
      registry lists them (the role and post type loops). */
  function KeepRegistered(items: seq<string>, registry: seq<string>): (r: seq<string>)
    ensures |r| <= |items|
    ensures forall j :: 0 <= j < |r| ==> r[j] in registry
  {
    MapFilter(items, Php.SanitizeTextField, name => name in registry)
  }

  /** The `absint` of each submitted ID, kept, in order, when it is positive
      and names an existing user. */
  function KeepExistingUsers(items: seq<string>, dir: Directory): (r: seq<int>)
    ensures |r| <= |items|
    ensures forall j :: 0 <= j < |r| ==> r[j] > 0 && r[j] in dir.users
  {
    MapFilter(items, s => Php.AbsInt(Php.IntVal(s)) as int, id => id > 0 && id in dir.users)
  }

  /** A key is kept exactly when it is allowed and was submitted, and every
      kept key is switched on. */
  lemma {:induction false} KeepAllowedKindsSpec(pairs: seq<(string, string)>)
    ensures forall key :: key in KeepAllowedKinds(pairs) <==>
      key in AllowedKinds && exists i :: 0 <= i < |pairs| && pairs[i].0 == key
    ensures forall key :: key in KeepAllowedKinds(pairs) ==> KeepAllowedKinds(pairs)[key] == "1"
  {
    if pairs != [] {
      var init := pairs[..|pairs| - 1];
      KeepAllowedKindsSpec(init);
      forall key | key in AllowedKinds && (exists i :: 0 <= i < |pairs| && pairs[i].0 == key)
        ensures key in KeepAllowedKinds(pairs)
      {
        var i :| 0 <= i < |pairs| && pairs[i].0 == key;
        if i < |init| {
          assert init[i] == pairs[i];
        }
      }
      forall key | key in KeepAllowedKinds(pairs)
        ensures exists i :: 0 <= i < |pairs| && pairs[i].0 == key
      {
        if key != pairs[|pairs| - 1].0 {
          var i :| 0 <= i < |init| && init[i].0 == key;
          assert pairs[i] == init[i];
        }
      }
    }
  }

  /** Every kept name is registered, and a name is kept exactly when it is
      registered and some submitted entry sanitizes to it; the kept names
      of two consecutive parts of the input come in input order. */
  lemma KeepRegisteredSpec(items: seq<string>, more: seq<string>, registry: seq<string>)
    ensures forall j :: 0 <= j < |KeepRegistered(items, registry)| ==> KeepRegistered(items, registry)[j] in registry
    ensures forall x :: x in KeepRegistered(items, registry) <==>
      x in registry && exists i :: 0 <= i < |items| && Php.SanitizeTextField(items[i]) == x
    ensures KeepRegistered(items + more, registry) == KeepRegistered(items, registry) + KeepRegistered(more, registry)
  {
    MapFilterSpec(items, Php.SanitizeTextField, name => name in registry);
    MapFilterAppend(items, more, Php.SanitizeTextField, name => name in registry);
  }

  /** Names that are already clean and registered are all kept, unchanged and
      in order. */
  lemma KeepRegisteredOfRegistered(items: seq<string>, registry: seq<string>)
    requires forall i :: 0 <= i < |items| ==> Php.NoSpaces(items[i]) && items[i] in registry
    ensures KeepRegistered(items, registry) == items
  {
    forall i | 0 <= i < |items| ensures Php.SanitizeTextField(items[i]) == items[i] {
      Php.SanitizeKeepsPlainText(items[i]);
    }
    MapFilterKeepsAccepted(items, Php.SanitizeTextField, name => name in registry);
  }

  /** Every kept ID is positive and names an existing user, and an ID is kept
      exactly when some submitted entry has it as its `absint`; the kept IDs
      of two consecutive parts of the input come in input order. */
  lemma KeepExistingUsersSpec(items: seq<string>, more: seq<string>, dir: Directory)
    ensures forall j :: 0 <= j < |KeepExistingUsers(items, dir)| ==>
      KeepExistingUsers(items, dir)[j] > 0 && KeepExistingUsers(items, dir)[j] in dir.users
    ensures forall id :: id in KeepExistingUsers(items, dir) <==>
      id > 0 && id in dir.users && exists i :: 0 <= i < |items| && Php.AbsInt(Php.IntVal(items[i])) == id
    ensures KeepExistingUsers(items + more, dir) == KeepExistingUsers(items, dir) + KeepExistingUsers(more, dir)
  {
    var f := s => Php.AbsInt(Php.IntVal(s)) as int;
    var keep := id => id > 0 && id in dir.users;
    MapFilterSpec(items, f, keep);
    MapFilterAppend(items, more, f, keep);
  }

  /** Submitting the decimal IDs of existing users keeps all of them, in
      order. */
  lemma {:induction false} KeepExistingUsersOfDecimals(ids: seq<nat>, items: seq<string>, dir: Directory)
    requires |items| == |ids|
    requires forall i :: 0 <= i < |ids| ==> items[i] == Php.NatToDecimal(ids[i]) && ids[i] > 0 && ids[i] in dir.users
    ensures KeepExistingUsers(items, dir) == ids
  {
    if items != [] {
      var n := |items| - 1;
      assert ids == ids[..n] + [ids[n]];
      KeepExistingUsersOfDecimals(ids[..n], items[..n], dir);
      Php.IntValOfDecimal(ids[n]);
      var f := s => Php.AbsInt(Php.IntVal(s)) as int;
      assert f(items[n]) == ids[n];
      assert KeepExistingUsers(items, dir) == KeepExistingUsers(items[..n], dir) + [ids[n]];
    }
  }

  /* ---------- the sanitized option ---------- */

  /** The option the sanitizer returns for an accepted submission. */
  function Sanitized(input: Submission, dir: Directory, site: Site): (r: OptionValue)
    ensures r.enabledNotifications.Some? && r.recipientRoles.Some?
    ensures r.enabledPostTypes.Some? && r.recipientUsers.Some?
    ensures r.smtp.None?
    ensures input.enabledNotifications.None? ==> r.enabledNotifications == Some(map[])
    ensures input.recipientRoles.None? ==> r.recipientRoles == Some([])
    ensures input.enabledPostTypes.None? ==> r.enabledPostTypes == Some(["post"])
    ensures input.recipientUsers.None? ==> r.recipientUsers == Some([])
  {
    OptionValue(
      Some(KeepAllowedKinds(input.enabledNotifications.GetOr([]))),
      Some(KeepRegistered(input.recipientRoles.GetOr([]), dir.roleNames)),
      Some(KeepExistingUsers(input.recipientUsers.GetOr([]), dir)),
      Some(match input.enabledPostTypes
           case None => ["post"]
           case Some(types) => KeepRegistered(types, site.publicPostTypes)),
      None)
  }

  /** `sanitize_settings`. A rejected submission returns the stored option
      and the code of the settings error it records. */
  method SanitizeSettings(input: Submission, req: Request, stored: OptionValue, dir: Directory, site: Site)
    returns (result: OptionValue, error: Option<string>)
    ensures !req.hasNonce || !req.nonceVerifies ==> result == stored && error == Some("nonce_failed")
    ensures req.hasNonce && req.nonceVerifies && !req.canManageOptions ==>
      result == stored && error == Some("permission_denied")
    ensures req.hasNonce && req.nonceVerifies && req.canManageOptions ==>
      result == Sanitized(input, dir, site) && error.None?
  {
    if !req.hasNonce || !req.nonceVerifies {
      return stored, Some("nonce_failed");
    }
    if !req.canManageOptions {
      return stored, Some("permission_denied");
    }

    var enabledNotifications: map<string, string> := map[];
    if input.enabledNotifications.Some? {
      enabledNotifications := KeepAllowedKindsLoop(input.enabledNotifications.value);
    }

    var recipientRoles: seq<string> := [];
    if input.recipientRoles.Some? {
      var availableRoles := dir.roleNames;
      recipientRoles := KeepRegisteredLoop(input.recipientRoles.value, availableRoles);
    }

    var enabledPostTypes: seq<string> := ["post"];
    if input.enabledPostTypes.Some? {
      var availablePostTypes := site.publicPostTypes;
      enabledPostTypes := KeepRegisteredLoop(input.enabledPostTypes.value, availablePostTypes);
    }

    var recipientUsers: seq<int> := [];
    if input.recipientUsers.Some? {
      recipientUsers := KeepExistingUsersLoop(input.recipientUsers.value, dir);
    }

    result := OptionValue(Some(enabledNotifications), Some(recipientRoles), Some(recipientUsers),
      Some(enabledPostTypes), None);
    error := None;
  }

  /** The `enabled_notifications` loop: each allowed submitted key is set to
      "1". */
  method KeepAllowedKindsLoop(pairs: seq<(string, string)>) returns (enabled: map<string, string>)
    ensures enabled == KeepAllowedKinds(pairs)
  {
    enabled := map[];
    for i := 0 to |pairs|
      invariant enabled == KeepAllowedKinds(pairs[..i])
    {
      assert pairs[..i + 1][..i] == pairs[..i];
      var key := pairs[i].0;
      if key in AllowedKinds {
        enabled := enabled[key := "1"];
      }
    }
    assert pairs[..|pairs|] == pairs;
  }

  /** The `recipient_roles` and `enabled_post_types` loops: each entry is
      sanitized and appended when the registry lists it. */
  method KeepRegisteredLoop(items: seq<string>, registry: seq<string>) returns (kept: seq<string>)
    ensures kept == KeepRegistered(items, registry)
  {
    kept := [];
    for i := 0 to |items|
      invariant kept == KeepRegistered(items[..i], registry)
    {
      assert items[..i + 1][..i] == items[..i];
      var name := Php.SanitizeTextField(items[i]);
      if name in registry {
        kept := kept + [name];
      }
    }
    assert items[..|items|] == items;
  }

  /** The `recipient_users` loop: each entry's `absint` is appended when it
      is positive and the user exists. */
  method KeepExistingUsersLoop(items: seq<string>, dir: Directory) returns (kept: seq<int>)
    ensures kept == KeepExistingUsers(items, dir)
  {
    kept := [];
    for i := 0 to |items|
      invariant kept == KeepExistingUsers(items[..i], dir)
    {
      assert items[..i + 1][..i] == items[..i];
      var userId := Php.AbsInt(Php.IntVal(items[i]));
      if userId > 0 && userId in dir.users {
        kept := kept + [userId];
      }
    }
    assert items[..|items|] == items;
  }

  /** After an accepted submission, the status handler sees a kind's toggle
      on exactly when that kind's key was submitted. */
  lemma SanitizedToggles(input: Submission, dir: Directory, site: Site, k: Kind)
    ensures Notifications.IsOn(Notifications.EnabledNotifications(Sanitized(input, dir, site)), k) <==>
      input.enabledNotifications.Some? &&
      exists i :: 0 <= i < |input.enabledNotifications.value| && input.enabledNotifications.value[i].0 == Key(k)
  {
    var pairs := input.enabledNotifications.GetOr([]);
    KeepAllowedKindsSpec(pairs);
    assert Key(k) in AllowedKinds by {
      match k
      case Pending => assert AllowedKinds[0] == Key(k);
      case Published => assert AllowedKinds[1] == Key(k);
      case Draft => assert AllowedKinds[2] == Key(k);
      case Scheduled => assert AllowedKinds[3] == Key(k);
      case Updated => assert AllowedKinds[4] == Key(k);
      case Trashed => assert AllowedKinds[5] == Key(k);
    }
  }
}
