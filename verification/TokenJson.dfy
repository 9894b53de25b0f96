/** Token endpoint payloads and the persisted form of a token (rp/token_source.go). */
module TokenJson {
  import opened Correlations

  /** A JSON document; a number is kept apart from one that is not a plain integer. */
  datatype Json =
    | Null
    | Bool(b: bool)
    | Int(n: int)
    | Fraction(text: string)
    | Str(s: string)
    | Arr(elements: seq<Json>)
    | Obj(members: map<string, Json>)

  type Int64 = n: int | -0x8000_0000_0000_0000 <= n < 0x8000_0000_0000_0000

  datatype Token = Token(
    accessToken: string,
    tokenType: string,
    expiresIn: Int64,
    idToken: string,
    refreshToken: string,
    grantID: string,
    scope: string,
    raw: Option<Json>)

  const ZERO_TOKEN := Token("", "", 0, "", "", "", "", None)

  /** Decoding a member into a Go string field: absent and null leave it empty, any other type is an error. */
  function StringMember(m: map<string, Json>, name: string): Option<string> {
    if name !in m || m[name].Null? then Some("")
    else if m[name].Str? then Some(m[name].s)
    else None
  }

  function IntMember(m: map<string, Json>, name: string): Option<Int64> {
    if name !in m || m[name].Null? then Some(0)
    else if m[name].Int? && -0x8000_0000_0000_0000 <= m[name].n < 0x8000_0000_0000_0000 then Some(m[name].n)
    else None
  }

  /** `json.Unmarshal` into the token's seven fields. */
  function DecodeFields(j: Json): Option<Token> {
    match j
    case Null => Some(ZERO_TOKEN)
    case Obj(m) =>
      var a, t, e := StringMember(m, "access_token"), StringMember(m, "token_type"), IntMember(m, "expires_in");
      var i, r := StringMember(m, "id_token"), StringMember(m, "refresh_token");
      var g, s := StringMember(m, "grant_id"), StringMember(m, "scope");
      if a.Some? && t.Some? && e.Some? && i.Some? && r.Some? && g.Some? && s.Some?
      then Some(Token(a.value, t.value, e.value, i.value, r.value, g.value, s.value, None))
      else None
    case _ => None
  }

  /** `parseTokenResponse`. */
  function Parse(j: Json): Option<Token> {
    match DecodeFields(j)
    case None => None
    case Some(t) => Some(t.(raw := Some(j)))
  }

  /** The members `json.Unmarshal` puts in a map; None is an error. */
  function Members(j: Json): Option<map<string, Json>> {
    match j
    case Null => Some(map[])
    case Obj(m) => Some(m)
    case _ => None
  }

  /** `Token.UnmarshalJSON`: a member present in the envelope wins over the raw payload. */
  function Unmarshal(data: Json): Option<Token> {
    if DecodeFields(data).None? || Members(data).None? then None
    else
      var stored, m := DecodeFields(data).value, Members(data).value;
      if "raw" !in m then Some(stored.(raw := Some(data)))
      else if DecodeFields(m["raw"]).None? then None
      else
        var legacy := DecodeFields(m["raw"]).value;
        Some(Token(
               if "access_token" in m then stored.accessToken else legacy.accessToken,
               if "token_type" in m then stored.tokenType else legacy.tokenType,
               if "expires_in" in m then stored.expiresIn else legacy.expiresIn,
               if "id_token" in m then stored.idToken else legacy.idToken,
               if "refresh_token" in m then stored.refreshToken else legacy.refreshToken,
               if "grant_id" in m then stored.grantID else legacy.grantID,
               if "scope" in m then stored.scope else legacy.scope,
               Some(m["raw"])))
  }

  /** Adds a string field tagged `omitempty`. */
  function With(m: map<string, Json>, name: string, s: string): map<string, Json> {
    if s == "" then m else m[name := Str(s)]
  }

  /** `json.Marshal` of the fields alone, used when there is no raw payload. */
  function MarshalFields(t: Token): Json {
    var m := map["access_token" := Str(t.accessToken), "token_type" := Str(t.tokenType),
                 "expires_in" := Int(t.expiresIn)];
    Obj(With(With(With(With(m, "id_token", t.idToken), "refresh_token", t.refreshToken), "grant_id", t.grantID),
             "scope", t.scope))
  }

  /** `Token.MarshalJSON`. */
  function Marshal(t: Token): Json {
    Obj(map["access_token" := Str(t.accessToken), "token_type" := Str(t.tokenType), "expires_in" := Int(t.expiresIn),
            "id_token" := Str(t.idToken), "refresh_token" := Str(t.refreshToken), "grant_id" := Str(t.grantID),
            "scope" := Str(t.scope), "raw" := if t.raw.Some? then t.raw.value else MarshalFields(t)])
  }

  /** What a token response says, member by member, by the names of section 5.1 of RFC 6749 and
      its extensions. An absent member, or one that is null, leaves the field empty; one of
      another type makes the response an error. */
  lemma ParsesByName(m: map<string, Json>)
    ensures Parse(Obj(m)).Some? <==>
              && (forall name :: name in STRING_MEMBERS && name in m ==> m[name].Str? || m[name].Null?)
              && ("expires_in" in m ==> m["expires_in"].Null? || FitsInt64(m["expires_in"]))
    ensures Parse(Obj(m)).Some? ==>
              var t := Parse(Obj(m)).value;
              && t.accessToken == Text(m, "access_token") && t.tokenType == Text(m, "token_type")
              && t.idToken == Text(m, "id_token") && t.refreshToken == Text(m, "refresh_token")
              && t.grantID == Text(m, "grant_id") && t.scope == Text(m, "scope")
              && t.expiresIn == (if "expires_in" in m && m["expires_in"].Int? then m["expires_in"].n else 0)
              && t.raw == Some(Obj(m))
  {
    assert "access_token" in STRING_MEMBERS && "token_type" in STRING_MEMBERS && "id_token" in STRING_MEMBERS;
    assert "refresh_token" in STRING_MEMBERS && "grant_id" in STRING_MEMBERS && "scope" in STRING_MEMBERS;
  }

  predicate FitsInt64(j: Json) {
    j.Int? && -0x8000_0000_0000_0000 <= j.n < 0x8000_0000_0000_0000
  }

  const STRING_MEMBERS: set<string> :=
    {"access_token", "token_type", "id_token", "refresh_token", "grant_id", "scope"}

  function Text(m: map<string, Json>, name: string): string {
    if name in m && m[name].Str? then m[name].s else ""
  }

  /** A document that is neither an object nor null is no token, and null is an empty one. */
  lemma OtherDocuments(j: Json)
    ensures !j.Obj? && !j.Null? ==> Parse(j) == None && Unmarshal(j) == None
    ensures Parse(Null) == Some(ZERO_TOKEN.(raw := Some(Null))) && Unmarshal(Null) == Parse(Null)
  {}

  function Optional(s: string, name: string): set<string> {
    if s != "" then {name} else {}
  }

  lemma WithAdds(m: map<string, Json>, name: string, s: string)
    ensures With(m, name, s).Keys == m.Keys + Optional(s, name)
  {}

  /** The fields alone are written under the names they are read by, the optional ones just when
      they say something. */
  lemma FieldsByName(t: Token)
    ensures MarshalFields(t).Obj?
    ensures MarshalFields(t).members.Keys ==
              {"access_token", "token_type", "expires_in"} + Optional(t.idToken, "id_token")
              + Optional(t.refreshToken, "refresh_token") + Optional(t.grantID, "grant_id") + Optional(t.scope, "scope")
  {
    var m := map["access_token" := Str(t.accessToken), "token_type" := Str(t.tokenType),
                 "expires_in" := Int(t.expiresIn)];
    var m1 := With(m, "id_token", t.idToken);
    var m2 := With(m1, "refresh_token", t.refreshToken);
    var m3 := With(m2, "grant_id", t.grantID);
    WithAdds(m, "id_token", t.idToken);
    WithAdds(m1, "refresh_token", t.refreshToken);
    WithAdds(m2, "grant_id", t.grantID);
    WithAdds(m3, "scope", t.scope);
  }

  /** A token is persisted under all of the names, empty or not. */
  lemma EnvelopeByName(t: Token)
    ensures Marshal(t).Obj? && Marshal(t).members.Keys == STRING_MEMBERS + {"expires_in", "raw"}
    ensures Text(Marshal(t).members, "refresh_token") == t.refreshToken && Text(Marshal(t).members, "scope") == t.scope
  {}

  lemma FieldsRoundTrip(t: Token)
    ensures DecodeFields(MarshalFields(t)) == Some(t.(raw := None))
  {}

  /** Persisting and restoring gives back the token exactly, provider payload included,
      just when that payload has a token's shape; otherwise restoring is an error. */
  lemma PersistRoundTrip(t: Token)
    requires t.raw.Some?
    ensures Unmarshal(Marshal(t)) == if DecodeFields(t.raw.value).Some? then Some(t) else None
  {}

  /** So every field of a token that came from the provider, or was edited or cleared
      since, survives: whatever members the provider's object has, its own "raw" included. */
  lemma ProviderTokenRoundTrip(p: Json, t: Token)
    requires Parse(p).Some? && t.raw == Parse(p).value.raw
    ensures Unmarshal(Marshal(t)) == Some(t)
    ensures Unmarshal(Marshal(t)).value.raw == Some(p)
  {
    PersistRoundTrip(t);
  }

  /** A restored token is as good as a fresh one: it survives any further round trips. */
  lemma RestoredTokenRoundTrip(data: Json)
    requires Unmarshal(data).Some?
    ensures Unmarshal(Marshal(Unmarshal(data).value)) == Unmarshal(data)
  {
    PersistRoundTrip(Unmarshal(data).value);
  }

  /** A token without a payload keeps its fields, and gains one that decodes to them. */
  lemma HandMadeTokenRoundTrip(t: Token)
    requires t.raw.None?
    ensures Unmarshal(Marshal(t)) == Some(t.(raw := Some(MarshalFields(t))))
    ensures Parse(MarshalFields(t)) == Unmarshal(Marshal(t))
  {
    FieldsRoundTrip(t);
    PersistRoundTrip(t.(raw := Some(MarshalFields(t))));
    assert Marshal(t) == Marshal(t.(raw := Some(MarshalFields(t))));
  }

  /** An envelope holding nothing but a payload decodes as that payload does. */
  lemma LegacyEnvelope(p: Json)
    ensures Unmarshal(Obj(map["raw" := p])) == Parse(p)
  {}
}
