/** The email composer: the subject line and the HTML body of a notification,
    both pure functions of the notification type, the post, the author's
    display name and the site information. Translation (`__`) is the
    identity, so the English texts are the templates. */
module Composer {
  import opened Wp
  import Php

  /* ---------- HTML escaping ---------- */

  /** The entity `esc_html` writes for one character. */
  function EscapeChar(c: char): string {
    if c == '&' then "&amp;"
    else if c == '<' then "&lt;"
    else if c == '>' then "&gt;"
    else if c == '"' then "&quot;"
    else if c == '\'' then "&#039;"
    else [c]
  }

  /** The five characters `esc_html` replaces by entities. */
  predicate IsHtmlSpecial(c: char) {
    c == '&' || c == '<' || c == '>' || c == '"' || c == '\''
  }

  /** `esc_html`: the five HTML special characters become entities; text
      without them is left as it is. */
  function EscHtml(s: string): (r: string)
    ensures |r| >= |s|
    ensures (forall i :: 0 <= i < |s| ==> !IsHtmlSpecial(s[i])) ==> r == s
  {
    if s == [] then []
    else
      assert forall i :: 0 <= i < |s[1..]| ==> s[1..][i] == s[i + 1];
      EscapeChar(s[0]) + EscHtml(s[1..])
  }

  /** Characters that can open or close markup or an attribute value. */
  predicate IsMarkup(c: char) {
    c == '<' || c == '>' || c == '"' || c == '\''
  }

  /** The text from position `i` on starts with one of the five entities
      `esc_html` writes. */
  predicate OpensEntity(t: string, i: int)
    requires 0 <= i <= |t|
  {
    "&amp;" <= t[i..] || "&lt;" <= t[i..] || "&gt;" <= t[i..] || "&quot;" <= t[i..] || "&#039;" <= t[i..]
  }

  /** Escaped text contains no character that can open or close markup, and
      every `&` in it opens one of the five entities, so a post title can
      inject neither tags, attributes nor entities into the body. */
  lemma {:induction false} EscHtmlHasNoMarkup(s: string)
    ensures forall i :: 0 <= i < |EscHtml(s)| ==> !IsMarkup(EscHtml(s)[i])
    ensures forall i :: 0 <= i < |EscHtml(s)| && EscHtml(s)[i] == '&' ==> OpensEntity(EscHtml(s), i)
  {
    EscHtmlAmpersands(s);
    if s != [] {
      EscHtmlHasNoMarkup(s[1..]);
      var e, rest := EscapeChar(s[0]), EscHtml(s[1..]);
      assert forall i :: 0 <= i < |e| ==> !IsMarkup(e[i]);
      forall i | 0 <= i < |e + rest| ensures !IsMarkup((e + rest)[i]) {
        if i >= |e| {
          assert (e + rest)[i] == rest[i - |e|];
        }
      }
    }
  }

  lemma {:induction false} EscHtmlAmpersands(s: string)
    ensures forall i :: 0 <= i < |EscHtml(s)| && EscHtml(s)[i] == '&' ==> OpensEntity(EscHtml(s), i)
  {
    if s != [] {
      EscHtmlAmpersands(s[1..]);
      var e, rest := EscapeChar(s[0]), EscHtml(s[1..]);
      assert EscHtml(s) == e + rest;
      forall i | 0 <= i < |e + rest| && (e + rest)[i] == '&' ensures OpensEntity(e + rest, i) {
        if i >= |e| {
          assert (e + rest)[i] == rest[i - |e|];
          assert (e + rest)[i..] == rest[i - |e|..];
        } else {
          EscapeCharOpensEntity(s[0], i, rest);
        }
      }
    }
  }

  /** Within one escaped character, an `&` can only be the start of its
      entity. */
  lemma EscapeCharOpensEntity(c: char, i: int, rest: string)
    requires 0 <= i < |EscapeChar(c)| && EscapeChar(c)[i] == '&'
    ensures OpensEntity(EscapeChar(c) + rest, i)
  {
    var e := EscapeChar(c);
    assert i == 0;
    assert (e + rest)[0..] == e + rest;
    assert e <= e + rest;
  }

  /** Decoding of the five entities `esc_html` writes. */
  function UnescapeHtml(s: string): string
    decreases |s|
  {
    if s == [] then []
    else if "&amp;" <= s then "&" + UnescapeHtml(s[5..])
    else if "&lt;" <= s then "<" + UnescapeHtml(s[4..])
    else if "&gt;" <= s then ">" + UnescapeHtml(s[4..])
    else if "&quot;" <= s then "\"" + UnescapeHtml(s[6..])
    else if "&#039;" <= s then "'" + UnescapeHtml(s[6..])
    else [s[0]] + UnescapeHtml(s[1..])
  }

  lemma UnescapeAfterEscapeChar(c: char, rest: string)
    ensures UnescapeHtml(EscapeChar(c) + rest) == [c] + UnescapeHtml(rest)
  {
    var e := EscapeChar(c);
    var s := e + rest;
    assert s[|e|..] == rest;
    assert e <= s;
    if c == '&' {
      assert UnescapeHtml(s) == "&" + UnescapeHtml(s[5..]);
    } else if c == '<' {
      assert !("&amp;" <= s) by { assert s[1] == 'l'; }
    } else if c == '>' {
      assert !("&amp;" <= s) by { assert s[1] == 'g'; }
      assert !("&lt;" <= s) by { assert s[1] == 'g'; }
    } else if c == '"' {
      assert !("&amp;" <= s) by { assert s[1] == 'q'; }
      assert !("&lt;" <= s) by { assert s[1] == 'q'; }
      assert !("&gt;" <= s) by { assert s[1] == 'q'; }
    } else if c == '\'' {
      assert !("&amp;" <= s) by { assert s[1] == '#'; }
      assert !("&lt;" <= s) by { assert s[1] == '#'; }
      assert !("&gt;" <= s) by { assert s[1] == '#'; }
      assert !("&quot;" <= s) by { assert s[1] == '#'; }
    } else {
      assert s[0] == c && s[1..] == rest;
      assert !("&amp;" <= s) && !("&lt;" <= s) && !("&gt;" <= s) && !("&quot;" <= s) && !("&#039;" <= s) by {
        assert "&amp;"[0] == '&' && "&lt;"[0] == '&' && "&gt;"[0] == '&';
        assert "&quot;"[0] == '&' && "&#039;"[0] == '&';
      }
      assert UnescapeHtml(s) == [s[0]] + UnescapeHtml(s[1..]);
    }
  }


  /** Escaping loses nothing: decoding the escaped text gives the text back. */
  lemma {:induction false} UnescapeEscHtml(s: string)
    ensures UnescapeHtml(EscHtml(s)) == s
  {
    if s != [] {
      UnescapeAfterEscapeChar(s[0], EscHtml(s[1..]));
      UnescapeEscHtml(s[1..]);
    }
  }

  /* ---------- the title ---------- */

  const NoTitle := "(no title)"

  /** The post title, or the placeholder when the title is falsy in PHP
      ("" or "0"). */
  function PostTitle(post: Post): string {
    if Php.Empty(post.title) then NoTitle else post.title
  }

  /** `str_replace(needle, replacement, s)` for one non-empty needle: occurrences are
      replaced from left to right without overlapping. */
  function ReplaceAll(s: string, needle: string, replacement: string): string
    requires |needle| > 0
    decreases |s|
  {
    if |s| < |needle| then s
    else if s[..|needle|] == needle then replacement + ReplaceAll(s[|needle|..], needle, replacement)
    else [s[0]] + ReplaceAll(s[1..], needle, replacement)
  }

  /** `str_replace(needles, replacement, s)` with an array of needles: each needle in
      turn, over the result of the previous one. */
  function StrReplace(needles: seq<string>, replacement: string, s: string): string
    requires forall i :: 0 <= i < |needles| ==> |needles[i]| > 0
  {
    if needles == [] then s else StrReplace(needles[1..], replacement, ReplaceAll(s, needles[0], replacement))
  }

  /** The needles the subject line removes, in the order they are applied. */
  const LineBreakNeedles: seq<string> := ["\r", "\n", "\r\n"]

  /** The title as it appears in the subject line. */
  function SubjectTitle(post: Post): string {
    StrReplace(LineBreakNeedles, " ", PostTitle(post))
  }

  predicate IsLineBreak(c: char) {
    c == '\r' || c == '\n'
  }

  predicate NoLineBreaks(s: string) {
    forall i :: 0 <= i < |s| ==> !IsLineBreak(s[i])
  }

  /** Replacing a one-character needle by one character replaces exactly the
      positions holding that character. */
  lemma {:induction false} ReplaceOneChar(s: string, c: char, d: char)
    ensures |ReplaceAll(s, [c], [d])| == |s|
    ensures forall i :: 0 <= i < |s| ==> ReplaceAll(s, [c], [d])[i] == if s[i] == c then d else s[i]
  {
    if s != [] {
      ReplaceOneChar(s[1..], c, d);
      var r := ReplaceAll(s, [c], [d]);
      assert s[..1] == [s[0]];
      assert r == [if s[0] == c then d else s[0]] + ReplaceAll(s[1..], [c], [d]);
    }
  }

  /** A needle whose first character does not occur leaves the text as it is. */
  lemma {:induction false} ReplaceAbsent(s: string, needle: string, replacement: string)
    requires |needle| > 0
    requires forall i :: 0 <= i < |s| ==> s[i] != needle[0]
    ensures ReplaceAll(s, needle, replacement) == s
  {
    if |s| >= |needle| {
      assert s[..|needle|][0] == s[0];
      ReplaceAbsent(s[1..], needle, replacement);
    }
  }

  /** The subject title is the title with each carriage return and each line
      feed replaced by one space: a CR LF pair becomes two spaces, and the
      third needle never finds anything. */
  lemma SubjectTitleSpec(post: Post)
    ensures var t, r := PostTitle(post), SubjectTitle(post);
      && |r| == |t|
      && (forall i :: 0 <= i < |t| ==> r[i] == if IsLineBreak(t[i]) then ' ' else t[i])
      && NoLineBreaks(r)
  {
    var t := PostTitle(post);
    var t1 := ReplaceAll(t, "\r", " ");
    ReplaceOneChar(t, '\r', ' ');
    var t2 := ReplaceAll(t1, "\n", " ");
    ReplaceOneChar(t1, '\n', ' ');
    ReplaceAbsent(t2, "\r\n", " ");
    var n := LineBreakNeedles;
    assert n[0] == "\r" && n[1..][0] == "\n" && n[1..][1..][0] == "\r\n" && n[1..][1..][1..] == [];
    calc {
      SubjectTitle(post);
      StrReplace(n, " ", t);
      StrReplace(n[1..], " ", t1);
      StrReplace(n[1..][1..], " ", t2);
      StrReplace(n[1..][1..][1..], " ", ReplaceAll(t2, "\r\n", " "));
      t2;
    }
  }

  /* ---------- the subject ---------- */

  /** The subject phrase of each kind. */
  function SubjectPhrase(k: Kind): string {
    match k
    case Pending => "New post pending review"
    case Published => "Post published"
    case Draft => "Post saved as draft"
    case Scheduled => "Post scheduled"
    case Updated => "Post updated"
    case Trashed => "Post trashed"
  }

  /** `get_email_subject`. */
  function Subject(notificationType: string, post: Post, site: Site): (r: string)
    ensures "[" + site.name + "] " <= r
  {
    match KindOf(notificationType)
    case Some(k) => "[" + site.name + "] " + SubjectPhrase(k) + ": " + SubjectTitle(post)
    case None => "[" + site.name + "] Post notification"
  }

  lemma NoLineBreaksConcat(a: string, b: string)
    ensures NoLineBreaks(a + b) <==> NoLineBreaks(a) && NoLineBreaks(b)
  {
    if NoLineBreaks(a) && NoLineBreaks(b) {
      forall i | 0 <= i < |a + b| ensures !IsLineBreak((a + b)[i]) {
        if i >= |a| {
          assert (a + b)[i] == b[i - |a|];
        }
      }
    }
    if NoLineBreaks(a + b) {
      forall i | 0 <= i < |a| ensures !IsLineBreak(a[i]) {
        assert (a + b)[i] == a[i];
      }
      forall i | 0 <= i < |b| ensures !IsLineBreak(b[i]) {
        assert (a + b)[|a| + i] == b[i];
      }
    }
  }

  lemma PhraseHasNoLineBreaks(k: Kind)
    ensures NoLineBreaks(SubjectPhrase(k))
  {
  }

  /** The pieces of a subject line: a head, a middle and a tail. */
  lemma SubjectPieces(head: string, mid: string, tail: string)
    ensures head <= head + mid + tail
    ensures (head + mid + tail)[|head + mid + tail| - |tail|..] == tail
    ensures NoLineBreaks(head) && NoLineBreaks(mid) && NoLineBreaks(tail) ==> NoLineBreaks(head + mid + tail)
  {
    NoLineBreaksConcat(head, mid);
    NoLineBreaksConcat(head + mid, tail);
  }

  /** The subject line of a known kind, built from its pieces. */
  lemma KnownSubjectShape(k: Kind, post: Post, site: Site)
    ensures var s := "[" + site.name + "] " + SubjectPhrase(k) + ": " + SubjectTitle(post);
      && "[" + site.name + "] " <= s
      && s[|s| - |SubjectTitle(post)|..] == SubjectTitle(post)
      && (NoLineBreaks(site.name) ==> NoLineBreaks(s))
  {
    SubjectTitleSpec(post);
    SubjectPieces("[", site.name, "] ");
    var head := "[" + site.name + "] ";
    PhraseHasNoLineBreaks(k);
    SubjectPieces(SubjectPhrase(k), ": ", "");
    assert SubjectPhrase(k) + ": " + "" == SubjectPhrase(k) + ": ";
    SubjectPieces(head, SubjectPhrase(k) + ": ", SubjectTitle(post));
    assert head + (SubjectPhrase(k) + ": ") + SubjectTitle(post)
      == "[" + site.name + "] " + SubjectPhrase(k) + ": " + SubjectTitle(post);
  }

  /** The subject line is "[site] " followed by the kind's phrase, ": " and the
      subject title, or "[site] Post notification" for an unknown type; it
      holds no line break unless the site name does. */
  lemma SubjectSpec(notificationType: string, post: Post, site: Site)
    ensures var s := Subject(notificationType, post, site);
      && "[" + site.name + "] " <= s
      && (KindOf(notificationType).Some? ==>
            s[|s| - |SubjectTitle(post)|..] == SubjectTitle(post))
      && (KindOf(notificationType).None? ==> s == "[" + site.name + "] Post notification")
      && (NoLineBreaks(site.name) ==> NoLineBreaks(s))
  {
    match KindOf(notificationType)
    case Some(k) =>
      KnownSubjectShape(k, post, site);
    case None =>
      var head := "[" + site.name + "] ";
      SubjectPieces("[", site.name, "] ");
      SubjectPieces(head, "Post notification", "");
      assert head + "Post notification" + "" == head + "Post notification";
  }

  /* ---------- the body ---------- */

  const HtmlHead := "<!DOCTYPE html><html><head><meta charset=\"UTF-8\"></head><body>"

  const HtmlFoot := "<hr><p style=\"font-size: 12px; color: #666;\">"
    + "This is an automated notification from Post Notifications plugin."
    + "</p></body></html>"

  /** The singular label of the post's type, or the type name when the type is
      not registered. */
  function TypeLabel(post: Post, site: Site): string {
    if post.postType in site.typeLabels then site.typeLabels[post.postType] else post.postType
  }

  /** One "<p><strong>Label:</strong> value</p>" line of the body. */
  function Field(name: string, value: string): string {
    "<p><strong>" + name + ":</strong> " + value + "</p>"
  }

  /** The opening sentence of each kind, before the link to the site. */
  function IntroText(k: Kind): string {
    match k
    case Pending => "A new post has been submitted for review on "
    case Published => "A post has been published on "
    case Draft => "A post has been saved as draft on "
    case Scheduled => "A post has been scheduled for publication on "
    case Updated => "A published post has been updated on "
    case Trashed => "A post has been moved to trash on "
  }

  function Intro(k: Kind, site: Site): string {
    "<p>" + IntroText(k) + "<a href=\"" + site.url + "\">" + EscHtml(site.name) + "</a>.</p>"
  }

  function Link(url: string, text: string): string {
    "<a href=\"" + url + "\">" + text + "</a>"
  }

  /** The kind-specific lines after the author line. */
  function Extra(k: Kind, post: Post, site: Site): string {
    match k
    case Pending =>
      Field("Status", "Pending Review") + "<p>" + Link(post.editLink, "Review and approve this post") + "</p>"
    case Published =>
      "<p>" + Link(post.permalink, "View post") + " | " + Link(post.editLink, "Edit post") + "</p>"
    case Draft =>
      "<p>" + Link(post.editLink, "Edit draft") + "</p>"
    case Scheduled =>
      Field("Scheduled for", EscHtml(post.date + " " + post.time))
      + "<p>" + Link(post.editLink, "Edit post") + "</p>"
    case Updated =>
      "<p>" + Link(post.permalink, "View post") + " | " + Link(post.editLink, "Edit post") + "</p>"
    case Trashed =>
      "<p>" + Link(site.adminUrl + "edit.php?post_status=trash&post_type=" + post.postType, "View trashed posts") + "</p>"
  }

  /** The fragment of one kind: intro, title, type, author, then the extra lines. */
  function Fragment(k: Kind, post: Post, authorName: string, site: Site): string {
    Intro(k, site)
    + Field("Title", EscHtml(PostTitle(post)))
    + Field("Type", EscHtml(TypeLabel(post, site)))
    + Field("Author", EscHtml(authorName))
    + Extra(k, post, site)
  }

  /** `get_email_message`: the fragment of the type, empty for an unknown
      type, inside the fixed HTML document and footer. */
  function Message(notificationType: string, post: Post, authorName: string, site: Site): (r: string)
    ensures HtmlHead <= r && |r| >= |HtmlHead| + |HtmlFoot|
  {
    var fragment := match KindOf(notificationType)
      case Some(k) => Fragment(k, post, authorName, site)
      case None => "";
    HtmlHead + fragment + HtmlFoot
  }

  /** `a` occurs as a contiguous piece of `b`. */
  predicate IsInfix(a: string, b: string) {
    exists i :: 0 <= i <= |b| - |a| && OccursAt(a, b, i)
  }

  /** `a` occurs in `b` starting at position `i`. */
  predicate OccursAt(a: string, b: string, i: nat)
    requires i + |a| <= |b|
  {
    b[i..i + |a|] == a
  }

  lemma InfixOfConcat(p: string, a: string, q: string)
    ensures IsInfix(a, p + a + q)
  {
    assert OccursAt(a, p + a + q, |p|) by {
      assert (p + a + q)[|p|..|p| + |a|] == a;
    }
  }

  /** The head and the foot of `h + x + f` are `h` and `f`. */
  lemma WrappedIn(h: string, x: string, f: string)
    ensures h <= h + x + f
    ensures |h + x + f| >= |h| + |f| && (h + x + f)[|h + x + f| - |f|..] == f
  {
  }

  /** Each of the middle three pieces of a fragment occurs in the wrapped body. */
  lemma PiecesInfix(h: string, i: string, t: string, y: string, u: string, x: string, f: string)
    ensures var m := h + (i + t + y + u + x) + f;
      IsInfix(t, m) && IsInfix(y, m) && IsInfix(u, m)
  {
    var m := h + (i + t + y + u + x) + f;
    assert m == (h + i) + t + (y + u + x + f);
    InfixOfConcat(h + i, t, y + u + x + f);
    assert m == (h + i + t) + y + (u + x + f);
    InfixOfConcat(h + i + t, y, u + x + f);
    assert m == (h + i + t + y) + u + (x + f);
    InfixOfConcat(h + i + t + y, u, x + f);
  }

  /** Every body starts with the fixed document head and ends with the fixed
      footer; an unknown type leaves nothing between them. For a known kind
      the body carries the title, the type label and the author, each passed
      through `esc_html`. */
  lemma MessageSpec(notificationType: string, post: Post, authorName: string, site: Site)
    ensures var m := Message(notificationType, post, authorName, site);
      && HtmlHead <= m
      && |m| >= |HtmlHead| + |HtmlFoot|
      && m[|m| - |HtmlFoot|..] == HtmlFoot
      && (KindOf(notificationType).None? ==> m == HtmlHead + HtmlFoot)
      && (KindOf(notificationType).Some? ==>
            && IsInfix(Field("Title", EscHtml(PostTitle(post))), m)
            && IsInfix(Field("Type", EscHtml(TypeLabel(post, site))), m)
            && IsInfix(Field("Author", EscHtml(authorName)), m))
  {
    match KindOf(notificationType)
    case None =>
      WrappedIn(HtmlHead, "", HtmlFoot);
    case Some(k) =>
      var fragment := Fragment(k, post, authorName, site);
      WrappedIn(HtmlHead, fragment, HtmlFoot);
      PiecesInfix(HtmlHead, Intro(k, site), Field("Title", EscHtml(PostTitle(post))),
        Field("Type", EscHtml(TypeLabel(post, site))), Field("Author", EscHtml(authorName)),
        Extra(k, post, site), HtmlFoot);
  }

}
