/** Who is signed in, as the dashboard works it out once on mount
    (app/components/Dashboard.tsx): the bearer token is read from the
    `access_token` cookie, decoded, and the user's name and e-mail address
    are taken from its claims. The JWT decoder is a parameter. */
module DashboardIdentity {
  import opened Results
  import opened Text

  const TokenPrefix: string := "access_token="

  /** `document.cookie.split(";").map((c) => c.trim())`. */
  function Cookies(header: string): (cs: seq<string>)
    ensures |cs| == |Split(header, ';')|
    ensures forall i :: 0 <= i < |cs| ==> cs[i] == Trim(Split(header, ';')[i])
  {
    var parts := Split(header, ';');
    seq(|parts|, i requires 0 <= i < |parts| => Trim(parts[i]))
  }

  /** `cookies.find((c) => c.startsWith(p))`: the first entry starting with
      `p`, if any. */
  function FindPrefixed(cs: seq<string>, p: string): (r: Option<string>)
    ensures r.None? <==> forall i :: 0 <= i < |cs| ==> !(p <= cs[i])
    ensures r.Some? ==> exists i :: 0 <= i < |cs| && cs[i] == r.value && p <= cs[i]
                                    && forall j :: 0 <= j < i ==> !(p <= cs[j])
    decreases |cs|
  {
    if cs == [] then None
    else if p <= cs[0] then Some(cs[0])
    else
      var r := FindPrefixed(cs[1..], p);
      assert r.Some? ==> exists i :: 0 <= i < |cs[1..]| && cs[1..][i] == r.value && p <= cs[1..][i]
                                     && forall j :: 0 <= j < i ==> !(p <= cs[1..][j]);
      assert r.Some? ==> exists i :: 1 <= i < |cs| && cs[i] == r.value && p <= cs[i]
                                     && forall j :: 0 <= j < i ==> !(p <= cs[j]);
      r
  }

  /** The text of `s` before its first `sep` (all of `s` if there is none). */
  function Before(s: string, sep: char): (r: string)
    ensures r <= s && sep !in r
    ensures |r| < |s| ==> s[|r|] == sep
    decreases |s|
  {
    if s == [] || s[0] == sep then [] else [s[0]] + Before(s[1..], sep)
  }

  /** A cookie `access_token=...` splits on '=' into at least two pieces,
      the second being the value up to the next '='. */
  lemma TokenPiece(c: string)
    requires TokenPrefix <= c
    ensures |Split(c, '=')| >= 2
    ensures Split(c, '=')[1] == Before(c[|TokenPrefix|..], '=')
  {
    var rest := c[|TokenPrefix|..];
    var t := Before(rest, '=');
    var tail := rest[|t|..];
    assert rest == t + tail;
    assert c == TokenPrefix + t + tail;
    assert '=' !in TokenPrefix[..|TokenPrefix| - 1];
    SecondPieceAfterPrefix(TokenPrefix, t, tail, '=');
  }

  /** `cookies.find(...)?.split("=")[1]`: the token, or None when no cookie
      carries one. */
  function TokenOf(header: string): (t: Option<string>)
    ensures t.Some? ==> '=' !in t.value
  {
    match FindPrefixed(Cookies(header), TokenPrefix)
    case None => None
    case Some(c) => TokenPiece(c); Some(Split(c, '=')[1])
  }

  /** The token is the text between "access_token=" and the next '=' of the
      first trimmed cookie that starts with "access_token="; there is none
      exactly when no trimmed cookie starts with it. */
  lemma TokenSpec(header: string)
    ensures TokenOf(header).None? <==> forall i :: 0 <= i < |Cookies(header)| ==> !(TokenPrefix <= Cookies(header)[i])
    ensures TokenOf(header).Some? ==>
              exists i :: 0 <= i < |Cookies(header)| && TokenPrefix <= Cookies(header)[i]
                          && TokenOf(header).value == Before(Cookies(header)[i][|TokenPrefix|..], '=')
                          && forall j :: 0 <= j < i ==> !(TokenPrefix <= Cookies(header)[j])
  {
    var found := FindPrefixed(Cookies(header), TokenPrefix);
    if found.Some? {
      TokenPiece(found.value);
    }
  }

  /** The claims of a decoded token the dashboard reads. */
  datatype Claims = Claims(name: Option<string>, email: Option<string>, Email: Option<string>, userEmail: Option<string>)

  /** `decoded.email || decoded.Email || decoded.user_email`, taken only when
      one of them is truthy. */
  function PickEmail(c: Claims): (r: Option<string>)
    ensures r.Some? <==> TruthyText(c.email) || TruthyText(c.Email) || TruthyText(c.userEmail)
    ensures r.Some? ==> r.value != ""
  {
    if TruthyText(c.email) then c.email
    else if TruthyText(c.Email) then c.Email
    else if TruthyText(c.userEmail) then c.userEmail
    else None
  }

  /** Precedence of the e-mail claims: `email`, then `Email`, then
      `user_email`; a falsy claim (missing or empty) is skipped. */
  lemma EmailPrecedence(c: Claims)
    ensures TruthyText(c.email) ==> PickEmail(c) == c.email
    ensures !TruthyText(c.email) && TruthyText(c.Email) ==> PickEmail(c) == c.Email
    ensures !TruthyText(c.email) && !TruthyText(c.Email) && TruthyText(c.userEmail) ==> PickEmail(c) == c.userEmail
  {
  }

  /** What the effect leaves behind: user name, user e-mail and the loading
      flag of the access lookup (`loadinguse`). */
  datatype Identity = Identity(username: Option<string>, email: Option<string>, loading: bool)

  /** The token-decoding effect, from the initial state (no name, no e-mail,
      loading). Without a truthy token, or when decoding fails, loading stops
      and nothing is set; otherwise the name and e-mail claims are copied
      when truthy and loading is left to the access lookup. */
  function ResolveIdentity(header: string, decode: string -> Option<Claims>): (id: Identity)
    ensures !TruthyText(TokenOf(header)) ==> id == Identity(None, None, false)
    ensures TruthyText(TokenOf(header)) && decode(TokenOf(header).value).None? ==> id == Identity(None, None, false)
    ensures id.email.Some? ==> TruthyText(TokenOf(header))
                               && decode(TokenOf(header).value).Some?
                               && id.email == PickEmail(decode(TokenOf(header).value).value)
    ensures id.username.Some? ==> id.username.value != "" && id.loading
    ensures (TruthyText(TokenOf(header)) && decode(TokenOf(header).value).Some?) ==>
              var c := decode(TokenOf(header).value).value;
              && id.email == PickEmail(c)
              && id.username == (if TruthyText(c.name) then c.name else None)
              && id.loading
  {
    var token := TokenOf(header);
    if !TruthyText(token) then Identity(None, None, false)
    else
      match decode(token.value)
      case None => Identity(None, None, false)
      case Some(claims) =>
        Identity(if TruthyText(claims.name) then claims.name else None, PickEmail(claims), true)
  }
}
