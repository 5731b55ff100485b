/** The part of Ruby's `URI` that `Docverter.api_url` relies on: splitting an
  * absolute URL into scheme, user-info, host (with port) and the rest, setting
  * the user and password, and printing the URL again (`URI::Generic#to_s`). */
module Uri {
  import opened Wrappers

  const Separator: string := "://"

  /** Characters that end the authority part of a hierarchical URL. */
  const AuthorityEnd: set<char> := {'/', '?', '#'}

  /** A parsed URL. `Hierarchical` is `scheme://[user[:password]@]hostPort rest`;
    * anything without "://" is kept whole as `Opaque`. */
  datatype Uri =
    | Hierarchical(scheme: string, user: Option<string>, password: Option<string>, hostPort: string, rest: string)
    | Opaque(text: string)

  /** Position of the first character of `s` that is in `cs`. */
  function FirstIn(s: string, cs: set<char>): (r: Option<nat>)
    ensures r.Some? ==> r.value < |s| && s[r.value] in cs
    ensures r.Some? ==> forall k :: 0 <= k < r.value ==> s[k] !in cs
    ensures r.None? ==> forall k :: 0 <= k < |s| ==> s[k] !in cs
  {
    if |s| == 0 then None
    else if s[0] in cs then Some(0)
    else match FirstIn(s[1..], cs)
      case None => None
      case Some(i) => Some(i + 1)
  }

  predicate SeparatorAt(s: string, k: nat) {
    k + |Separator| <= |s| && s[k..k + |Separator|] == Separator
  }

  /** Position of the first "://" in `s` at or after `from`. */
  function FindSeparatorFrom(s: string, from: nat): (r: Option<nat>)
    requires from <= |s|
    ensures r.Some? ==> from <= r.value && SeparatorAt(s, r.value)
    ensures r.Some? ==> forall k :: from <= k < r.value ==> !SeparatorAt(s, k)
    ensures r.None? ==> forall k :: from <= k <= |s| ==> !SeparatorAt(s, k)
    decreases |s| - from
  {
    if from + |Separator| > |s| then None
    else if s[from..from + |Separator|] == Separator then Some(from)
    else FindSeparatorFrom(s, from + 1)
  }

  function FindSeparator(s: string): (r: Option<nat>)
    ensures r.Some? ==> SeparatorAt(s, r.value) && forall k :: 0 <= k < r.value ==> !SeparatorAt(s, k)
    ensures r.None? ==> forall k :: 0 <= k <= |s| ==> !SeparatorAt(s, k)
  {
    FindSeparatorFrom(s, 0)
  }

  /** Ruby's `split_userinfo`: the user is the text before the first ':' and the password
    * the text after it; without a ':' there is no password, and an empty text gives
    * neither a user nor a password. */
  function SplitUserInfo(info: string): (r: (Option<string>, Option<string>))
    ensures r.0.None? <==> info == ""
    ensures r.0.None? ==> r.1.None?
    ensures info != "" ==> r.0 == Some(UserPart(info))
    ensures r.1.Some? ==> info == r.0.value + ":" + r.1.value
    ensures info != "" && r.1.None? ==> r.0 == Some(info)
  {
    if info == "" then (None, None)
    else match FirstIn(info, {':'})
      case None => (Some(info), None)
      case Some(c) => (Some(info[..c]), Some(info[c + 1..]))
  }

  /** The part of a user-info text that becomes the user: everything before its first ':'. */
  function UserPart(info: string): (user: string)
    ensures |user| <= |info| && user == info[..|user|]
    ensures forall k :: 0 <= k < |user| ==> user[k] != ':'
    ensures |user| < |info| ==> info[|user|] == ':'
  {
    match FirstIn(info, {':'})
    case None => info
    case Some(c) => info[..c]
  }

  /** The authority of `after` (the text after "://") runs up to its first '/', '?' or
    * '#'; the rest is everything from there on. */
  function SplitAuthority(after: string): (r: (string, string))
    ensures r.0 + r.1 == after
  {
    var end := match FirstIn(after, AuthorityEnd) case Some(j) => j case None => |after|;
    assert after == after[..end] + after[end..];
    (after[..end], after[end..])
  }

  /** User, password and host of an authority: user-info ends at its first '@'. */
  function SplitAuthorityParts(authority: string): (r: (Option<string>, Option<string>, string))
    ensures r.0.None? ==> r.1.None?
  {
    match FirstIn(authority, {'@'})
    case None => (None, None, authority)
    case Some(a) =>
      var (user, password) := SplitUserInfo(authority[..a]);
      (user, password, authority[a + 1..])
  }

  /** The URL whose scheme is `scheme` and whose text after "://" is `after`. */
  function ParseHierarchical(scheme: string, after: string): Uri {
    var (authority, rest) := SplitAuthority(after);
    var (user, password, hostPort) := SplitAuthorityParts(authority);
    Hierarchical(scheme, user, password, hostPort, rest)
  }

  /** Characters a URI reference may contain (section 2 of RFC 3986): printable ASCII
    * other than space and `"<>\\^`{|}`. */
  predicate UriChar(c: char) {
    '!' <= c <= '~' && c !in {'"', '<', '>', '\\', '^', '`', '{', '|', '}'}
  }

  predicate Acceptable(s: string) {
    forall k :: 0 <= k < |s| ==> UriChar(s[k])
  }

  function BadUriMessage(s: string): string {
    "bad URI(is not URI?): " + s
  }

  /** `URI(s)`: a text with a character no URI may contain raises `URI::InvalidURIError`;
    * any other text is split by `Parse`. */
  function Make(s: string): (r: Result<Uri, string>)
    ensures r.Success? <==> Acceptable(s)
    ensures r.Failure? ==> r.error == BadUriMessage(s)
  {
    if Acceptable(s) then Success(Parse(s)) else Failure(BadUriMessage(s))
  }

  /** The split `URI(s)` makes: the scheme ends at the first "://"; text without "://" stays opaque. */
  function Parse(s: string): Uri {
    match FindSeparator(s)
    case None => Opaque(s)
    case Some(i) => ParseHierarchical(s[..i], s[i + |Separator|..])
  }

  /** The "user[:password]@" prefix of the authority; empty when no user is set. */
  function UserInfo(user: Option<string>, password: Option<string>): string {
    match user
    case None => ""
    case Some(name) => name + (match password case None => "" case Some(p) => ":" + p) + "@"
  }

  /** `URI::Generic#to_s`. */
  function ToString(u: Uri): string {
    match u
    case Opaque(text) => text
    case Hierarchical(scheme, user, password, hostPort, rest) =>
      scheme + Separator + UserInfo(user, password) + hostPort + rest
  }

  const OpaqueUserMessage: string := "can not set user with opaque"
  const OpaquePasswordMessage: string := "can not set password with opaque"
  const PasswordWithoutUserMessage: string := "password component depends user component"

  /** `u.user = user` (`set_userinfo(user, @password)`): refused on an opaque URI. When
    * the URL has no password yet, `user` is split at its first ':' into user and
    * password, and an empty `user` clears the user; otherwise it replaces the user whole. */
  function SetUser(u: Uri, user: string): (r: Result<Uri, string>)
    ensures r.Success? <==> u.Hierarchical?
    ensures r.Failure? ==> r.error == OpaqueUserMessage
    ensures r.Success? ==> r.value.Hierarchical? && r.value.scheme == u.scheme && r.value.hostPort == u.hostPort && r.value.rest == u.rest
    ensures r.Success? && u.password.Some? ==> r.value.user == Some(user) && r.value.password == u.password
    ensures r.Success? && u.password.None? && user != "" ==> r.value.user == Some(UserPart(user))
    ensures r.Success? && u.password.None? && user == "" ==> r.value.user.None? && r.value.password.None?
  {
    match u
    case Opaque(_) => Failure(OpaqueUserMessage)
    case Hierarchical(scheme, _, password, hostPort, rest) =>
      if password.Some? then Success(Hierarchical(scheme, Some(user), password, hostPort, rest))
      else
        var (name, secret) := SplitUserInfo(user);
        Success(Hierarchical(scheme, name, secret, hostPort, rest))
  }

  /** `u.password = password`: refused on an opaque URI and on a URL without a user. */
  function SetPassword(u: Uri, password: string): (r: Result<Uri, string>)
    ensures r.Success? <==> u.Hierarchical? && u.user.Some?
    ensures r.Failure? ==> r.error == (if u.Opaque? then OpaquePasswordMessage else PasswordWithoutUserMessage)
    ensures r.Success? ==> r.value.Hierarchical? && r.value.password == Some(password)
    ensures r.Success? ==> r.value.scheme == u.scheme && r.value.user == u.user && r.value.hostPort == u.hostPort && r.value.rest == u.rest
  {
    match u
    case Opaque(_) => Failure(OpaquePasswordMessage)
    case Hierarchical(scheme, user, _, hostPort, rest) =>
      if user.None? then Failure(PasswordWithoutUserMessage)
      else Success(Hierarchical(scheme, user, Some(password), hostPort, rest))
  }

  /** Two texts `URI()` accepts still are accepted once joined. */
  lemma AcceptableAppend(a: string, b: string)
    requires Acceptable(a) && Acceptable(b)
    ensures Acceptable(a + b)
  {
    forall k | 0 <= k < |a + b| ensures UriChar((a + b)[k]) {
      if k < |a| { assert (a + b)[k] == a[k]; } else { assert (a + b)[k] == b[k - |a|]; }
    }
  }

  /** An authority that starts with '@' has an empty user-info. */
  predicate AtFirst(authority: string) {
    |authority| > 0 && authority[0] == '@'
  }

  /** The URL `s` has an empty user-info ("http://@host"). Ruby keeps no user for it
    * (`split_userinfo("")`), so the '@' is not printed back. */
  predicate EmptyUserInfo(s: string) {
    match FindSeparator(s)
    case None => false
    case Some(i) => AtFirst(SplitAuthority(s[i + |Separator|..]).0)
  }

  lemma SplitUserInfoPrint(info: string)
    requires info != ""
    ensures UserInfo(SplitUserInfo(info).0, SplitUserInfo(info).1) == info + "@"
  {
    match FirstIn(info, {':'}) {
      case None =>
      case Some(c) =>
        assert info[c] == ':';
        SplitAround(info, c);
        AppendAssoc(info[..c], ":", info[c + 1..]);
    }
  }

  /** A string is its part before position `i`, the character at `i`, and the part after. */
  lemma SplitAround(s: string, i: nat)
    requires i < |s|
    ensures s == s[..i] + [s[i]] + s[i + 1..]
  {
  }

  lemma SplitAuthorityPartsPrint(authority: string)
    requires !AtFirst(authority)
    ensures var (user, password, hostPort) := SplitAuthorityParts(authority);
      UserInfo(user, password) + hostPort == authority
  {
    match FirstIn(authority, {'@'}) {
      case None =>
      case Some(a) =>
        SplitUserInfoPrint(authority[..a]);
        assert authority == authority[..a] + "@" + authority[a + 1..];
    }
  }

  lemma SplitAuthorityPartsDropAt(authority: string)
    requires AtFirst(authority)
    ensures var (user, password, hostPort) := SplitAuthorityParts(authority);
      UserInfo(user, password) + hostPort == authority[1..]
  {
    assert FirstIn(authority, {'@'}) == Some(0);
    assert UserInfo(None, None) + authority[1..] == authority[1..];
  }

  lemma ParseHierarchicalPrint(scheme: string, after: string)
    requires !AtFirst(SplitAuthority(after).0)
    ensures ToString(ParseHierarchical(scheme, after)) == scheme + Separator + after
  {
    var (authority, rest) := SplitAuthority(after);
    SplitAuthorityPartsPrint(authority);
    var (user, password, hostPort) := SplitAuthorityParts(authority);
    PrintHierarchical(scheme, user, password, hostPort, rest);
  }

  lemma PrintHierarchical(scheme: string, user: Option<string>, password: Option<string>, hostPort: string, rest: string)
    ensures ToString(Hierarchical(scheme, user, password, hostPort, rest))
      == scheme + Separator + (UserInfo(user, password) + hostPort + rest)
  {
    AppendAssoc(scheme + Separator, UserInfo(user, password) + hostPort, rest);
    AppendAssoc(scheme + Separator, UserInfo(user, password), hostPort);
  }

  lemma ParseHierarchicalDropAt(scheme: string, after: string)
    requires AtFirst(SplitAuthority(after).0)
    ensures |after| > 0 && ToString(ParseHierarchical(scheme, after)) == scheme + Separator + after[1..]
  {
    var (authority, rest) := SplitAuthority(after);
    SplitAuthorityPartsDropAt(authority);
    var (user, password, hostPort) := SplitAuthorityParts(authority);
    assert after[1..] == authority[1..] + rest;
    PrintHierarchical(scheme, user, password, hostPort, rest);
  }

  /** Printing a parsed URL gives back the text it was parsed from, unless its
    * user-info is empty. */
  lemma PrintParse(s: string)
    requires !EmptyUserInfo(s)
    ensures ToString(Parse(s)) == s
  {
    if FindSeparator(s).Some? {
      var i := FindSeparator(s).value;
      ParseHierarchicalPrint(s[..i], s[i + |Separator|..]);
      SplitAtSeparator(s, i);
    }
  }

  /** An empty user-info is dropped: the '@' right after "scheme://" is not printed. */
  lemma PrintParseDropsAt(s: string)
    requires EmptyUserInfo(s)
    ensures Parse(s).Hierarchical? && |Parse(s).scheme| + |Separator| < |s|
    ensures var n := |Parse(s).scheme| + |Separator|;
      s[n] == '@' && ToString(Parse(s)) == s[..n] + s[n + 1..]
  {
    var i := FindSeparator(s).value;
    var after := s[i + |Separator|..];
    ParseHierarchicalDropAt(s[..i], after);
    SplitAtSeparator(s, i);
    assert after[0] == SplitAuthority(after).0[0];
    assert s[i + |Separator| + 1..] == after[1..];
  }

  lemma SplitAtSeparator(s: string, i: nat)
    requires SeparatorAt(s, i)
    ensures s == s[..i] + Separator + s[i + |Separator|..]
  {
    assert s == s[..i] + s[i..i + |Separator|] + s[i + |Separator|..];
  }

  /** Setting user `k` and then an empty password on a URL that has no user-info
    * inserts the part of `k` before its first ':', then ":@", right after "scheme://",
    * and changes nothing else. */
  lemma {:induction false} InsertUserInfo(s: string, k: string)
    requires Parse(s).Hierarchical? && Parse(s).user.None? && !EmptyUserInfo(s)
    requires k != ""
    ensures SetUser(Parse(s), k).Success? && SetPassword(SetUser(Parse(s), k).value, "").Success?
    ensures |Parse(s).scheme| + |Separator| <= |s|
    ensures var n := |Parse(s).scheme| + |Separator|;
      ToString(SetPassword(SetUser(Parse(s), k).value, "").value) == s[..n] + UserPart(k) + ":@" + s[n..]
  {
    var u := Parse(s);
    var head, tail := u.scheme + Separator, u.hostPort + u.rest;
    PrintWithoutUser(s);
    assert s[..|head|] == head && s[|head|..] == tail;
    SetUserThenPassword(u, k);
    PrintWithUser(u.scheme, UserPart(k), u.hostPort, u.rest);
  }

  /** `u.user = k; u.password = ""` on a URL without user-info: the user is the part
    * of `k` before its first ':', and the password is empty. */
  lemma SetUserThenPassword(u: Uri, k: string)
    requires u.Hierarchical? && u.password.None? && k != ""
    ensures SetUser(u, k).Success?
    ensures SetPassword(SetUser(u, k).value, "") == Success(Hierarchical(u.scheme, Some(UserPart(k)), Some(""), u.hostPort, u.rest))
  {
  }

  /** `u.user = ""; u.password = ""` on a URL without user-info: the empty user is
    * dropped, so setting the password is refused. */
  lemma EmptyUserRefused(u: Uri)
    requires u.Hierarchical? && u.password.None?
    ensures SetUser(u, "").Success?
    ensures SetPassword(SetUser(u, "").value, "") == Failure(PasswordWithoutUserMessage)
  {
  }

  /** A parsed URL without user-info is its scheme, the separator, its host and its rest. */
  lemma PrintWithoutUser(s: string)
    requires Parse(s).Hierarchical? && Parse(s).user.None? && !EmptyUserInfo(s)
    ensures s == Parse(s).scheme + Separator + (Parse(s).hostPort + Parse(s).rest)
  {
    PrintParse(s);
    PrintNoUser(Parse(s));
  }

  lemma PrintNoUser(u: Uri)
    requires u.Hierarchical? && u.user.None?
    ensures ToString(u) == u.scheme + Separator + (u.hostPort + u.rest)
  {
    assert UserInfo(u.user, u.password) == "";
    assert u.scheme + Separator + "" == u.scheme + Separator;
    AppendAssoc(u.scheme + Separator, u.hostPort, u.rest);
  }

  lemma PrintWithUser(scheme: string, k: string, hostPort: string, rest: string)
    ensures ToString(Hierarchical(scheme, Some(k), Some(""), hostPort, rest))
      == scheme + Separator + k + ":@" + (hostPort + rest)
  {
    var head, info := scheme + Separator, k + ":@";
    calc {
      ToString(Hierarchical(scheme, Some(k), Some(""), hostPort, rest));
      head + info + hostPort + rest;
      { AppendAssoc(head + info, hostPort, rest); }
      head + info + (hostPort + rest);
      { AppendAssoc(head, k, ":@"); }
      head + k + ":@" + (hostPort + rest);
    }
  }

  lemma AppendAssoc(a: string, b: string, c: string)
    ensures a + b + c == a + (b + c)
  {
  }

  /** Text without ':': a scheme in which "://" cannot start early, or a user that
    * `user=` keeps whole. */
  predicate NoColon(scheme: string) {
    forall k :: 0 <= k < |scheme| ==> scheme[k] != ':'
  }

  /** A host (with port) that carries no user-info and does not end the authority early. */
  predicate PlainHost(hostPort: string) {
    forall k :: 0 <= k < |hostPort| ==> hostPort[k] !in AuthorityEnd && hostPort[k] != '@'
  }

  /** "://" is found right after a scheme that has no ':' in it. */
  lemma SeparatorAfterScheme(scheme: string, tail: string)
    requires NoColon(scheme)
    ensures FindSeparator(scheme + Separator + tail) == Some(|scheme|)
  {
    var s := scheme + Separator + tail;
    var i := |scheme|;
    assert SeparatorAt(s, i) by { assert s[i..i + |Separator|] == Separator; }
    forall k | 0 <= k < i ensures !SeparatorAt(s, k) {
      assert s[k] == scheme[k];
    }
  }

  /** The first character of `a + b` in `cs` is the first of `b` when `a` has none. */
  lemma FirstInAfter(a: string, b: string, cs: set<char>)
    requires forall k :: 0 <= k < |a| ==> a[k] !in cs
    requires b == [] || b[0] in cs
    ensures FirstIn(a + b, cs) == if b == [] then None else Some(|a|)
  {
    var s := a + b;
    forall k | 0 <= k < |a| ensures s[k] !in cs {
      assert s[k] == a[k];
    }
    if b != [] {
      assert s[|a|] == b[0];
    }
  }

  /** A URL written out as scheme, "://", and a host part free of '@' and of the
    * authority terminators parses to exactly those pieces, with no user-info. */
  lemma {:induction false} ParseOfParts(scheme: string, hostPort: string, rest: string)
    requires NoColon(scheme) && PlainHost(hostPort)
    requires rest == [] || rest[0] in AuthorityEnd
    ensures Parse(scheme + Separator + hostPort + rest) == Hierarchical(scheme, None, None, hostPort, rest)
  {
    var s := scheme + Separator + hostPort + rest;
    assert s == scheme + Separator + (hostPort + rest);
    SeparatorAfterScheme(scheme, hostPort + rest);
    var after := s[|scheme| + |Separator|..];
    assert after == hostPort + rest;
    FirstInAfter(hostPort, rest, AuthorityEnd);
    assert SplitAuthority(after) == (hostPort, rest) by {
      assert after[..|hostPort|] == hostPort;
      assert after[|hostPort|..] == rest;
    }
    FirstInAfter(hostPort, [], {'@'});
    assert hostPort + [] == hostPort;
  }
}
