/**
 * The "Basic" HTTP authentication scheme of section 2 of RFC 7617: the
 * credentials are the user-id, a colon and the password, encoded in base 64
 * and preceded by the scheme name and one space. A user-id cannot contain a
 * colon, since the receiver splits the decoded text at the first one.
 */
module BasicAuth {

  import opened PhpArrays
  import opened Base64

  const Scheme: string := "Basic "

  /** The user-pass text `user-id ":" password`. */
  function UserPass(user: string, password: string): (t: string)
    ensures |t| == |user| + 1 + |password|
    ensures t[..|user|] == user && t[|user|] == ':' && t[|user| + 1..] == password
  {
    user + ":" + password
  }

  lemma UserPassIsByteString(user: string, password: string)
    requires IsByteString(user) && IsByteString(password)
    ensures IsByteString(UserPass(user, password))
  {
    var text := UserPass(user, password);
    assert forall i :: 0 <= i < |user| ==> text[i] == user[i];
    assert forall i :: |user| < i < |text| ==> text[i] == password[i - |user| - 1];
  }

  /** The value of an Authorization header carrying Basic credentials. */
  function Credentials(user: string, password: string): (h: string)
    requires IsByteString(user) && IsByteString(password)
    ensures |h| > |Scheme| && h[..|Scheme|] == Scheme
  {
    var text := UserPass(user, password);
    UserPassIsByteString(user, password);
    EncodedLength(ToBytes(text));
    Scheme + Encode(ToBytes(text))
  }

  /** Splits the user-pass text at its first colon; None when there is none. */
  function SplitAtColon(s: string): (r: Option<(string, string)>)
    ensures r.None? <==> ':' !in s
    ensures r.Some? ==> ':' !in r.value.0 && s == UserPass(r.value.0, r.value.1)
  {
    if s == [] then None
    else if s[0] == ':' then Some(([], s[1..]))
    else
      match SplitAtColon(s[1..])
      case None => None
      case Some(up) => Some(([s[0]] + up.0, up.1))
  }

  /** What a receiver reads from an Authorization header: user-id and password. */
  function Parse(h: string): Option<(string, string)>
  {
    if |h| < |Scheme| || h[..|Scheme|] != Scheme then None
    else
      match Decode(h[|Scheme|..])
      case None => None
      case Some(b) => SplitAtColon(FromBytes(b))
  }

  /** A user-id without a colon is split off exactly. */
  lemma {:induction false} SplitUserPass(user: string, password: string)
    requires ':' !in user
    ensures SplitAtColon(UserPass(user, password)) == Some((user, password))
  {
    if user != [] {
      var s := UserPass(user, password);
      SplitUserPass(user[1..], password);
      assert s[0] == user[0] && s[0] != ':';
      assert s[1..] == UserPass(user[1..], password);
      assert [user[0]] + user[1..] == user;
    }
  }

  /** The receiver recovers the user-id and the password from the header. */
  lemma ParseCredentials(user: string, password: string)
    requires IsByteString(user) && IsByteString(password)
    requires ':' !in user
    ensures Parse(Credentials(user, password)) == Some((user, password))
  {
    var text := UserPass(user, password);
    var h := Credentials(user, password);
    UserPassIsByteString(user, password);
    assert h[|Scheme|..] == Encode(ToBytes(text));
    DecodeEncode(ToBytes(text));
    BytesRoundTrip(text);
    SplitUserPass(user, password);
  }

  /**
   * A user-id with a colon is not recovered: the receiver splits at its
   * first colon, so it reads a shorter user-id and a longer password.
   */
  lemma ParseColonInUser(user: string, password: string)
    requires IsByteString(user) && IsByteString(password)
    requires ':' in user
    ensures Parse(Credentials(user, password)) == SplitAtColon(UserPass(user, password))
    ensures Parse(Credentials(user, password)).Some?
    ensures Parse(Credentials(user, password)) != Some((user, password))
  {
    var text := UserPass(user, password);
    var h := Credentials(user, password);
    UserPassIsByteString(user, password);
    assert h[|Scheme|..] == Encode(ToBytes(text));
    DecodeEncode(ToBytes(text));
    BytesRoundTrip(text);
    var i :| 0 <= i < |user| && user[i] == ':';
    assert text[i] == ':';
  }

  /** With the password fixed, the header determines the user-id. */
  lemma CredentialsInjective(user: string, user': string, password: string)
    requires IsByteString(user) && IsByteString(user') && IsByteString(password)
    requires Credentials(user, password) == Credentials(user', password)
    ensures user == user'
  {
    var text, text' := UserPass(user, password), UserPass(user', password);
    UserPassIsByteString(user, password);
    UserPassIsByteString(user', password);
    var h := Credentials(user, password);
    assert h[|Scheme|..] == Encode(ToBytes(text));
    assert Credentials(user', password)[|Scheme|..] == Encode(ToBytes(text'));
    EncodeInjective(ToBytes(text), ToBytes(text'));
    BytesRoundTrip(text);
    BytesRoundTrip(text');
    assert |user| == |user'|;
    assert user == text[..|user|] && user' == text'[..|user'|];
  }

  /** An API key `abc` with the placeholder password. */
  lemma CredentialsExample()
    ensures Credentials("abc", "nopass") == "Basic YWJjOm5vcGFzcw=="
  {
  }
}
