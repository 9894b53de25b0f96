/** Token endpoint authentication methods: normalising what a provider advertises and
    choosing one (rp/auth_method.go, rp/client_config.go). */
module AuthMethods {
  import opened Correlations
  import opened Text

  datatype AuthMethod =
    | Unset | NoAuth | Basic | Post | SecretJWT | PrivateKeyJWT | TLS | SelfSignedTLS
    | Unknown(name: string)

  function Name(m: AuthMethod): string {
    match m
    case Unset => ""
    case NoAuth => "none"
    case Basic => "client_secret_basic"
    case Post => "client_secret_post"
    case SecretJWT => "client_secret_jwt"
    case PrivateKeyJWT => "private_key_jwt"
    case TLS => "tls_client_auth"
    case SelfSignedTLS => "self_signed_tls_client_auth"
    case Unknown(name) => name
  }

  /** What a client key provider can do; `rsaBits` is None for a key that is not RSA. */
  datatype KeyProvider = KeyProvider(hasCertificate: bool, signingAlg: string, rsaBits: Option<nat>)

  datatype Credentials = Credentials(configured: AuthMethod, secret: string, key: Option<KeyProvider>)

  predicate HasSecret(c: Credentials) {
    TrimSpace(c.secret) != ""
  }

  predicate HasCertificate(c: Credentials) {
    c.key.Some? && c.key.value.hasCertificate
  }

  function Normalize(name: string): string {
    TrimSpace(ToLower(name))
  }

  /** The advertised names, normalised, blanks dropped, each where it first occurs. */
  function Normalized(advertised: seq<string>): seq<string> {
    if advertised == [] then []
    else
      var before, name := Normalized(advertised[..|advertised| - 1]), Normalize(advertised[|advertised| - 1]);
      if name == "" || name in before then before else before + [name]
  }

  /** `normalizeSupportedAuthMethods`. */
  method NormalizeSupported(methods: seq<string>) returns (normalized: seq<string>)
    ensures normalized == Normalized(methods)
    ensures forall i, j :: 0 <= i < j < |normalized| ==> normalized[i] != normalized[j]
  {
    normalized := [];
    var seen: set<string> := {};
    for i := 0 to |methods|
      invariant normalized == Normalized(methods[..i])
      invariant seen == set name | name in normalized
      invariant forall i, j :: 0 <= i < j < |normalized| ==> normalized[i] != normalized[j]
    {
      assert methods[..i + 1] == methods[..i] + [methods[i]];
      assert methods[..i + 1][..i] == methods[..i];
      var trimmed := TrimSpace(ToLower(methods[i]));
      if trimmed == "" {
        continue;
      }
      if trimmed in seen {
        continue;
      }
      seen := seen + {trimmed};
      normalized := normalized + [trimmed];
    }
    assert methods[..|methods|] == methods;
  }

  /** The name looked for in a normalised list; the known names are in normal form already. */
  function Wanted(m: AuthMethod): string {
    if m.Unknown? then Normalize(m.name) else Name(m)
  }

  predicate ExactMatch(m: AuthMethod, supported: seq<string>) {
    Wanted(m) in supported
  }

  /** `methodSupported`: either mTLS flavour stands in for the other, and "none" always goes. */
  predicate MethodSupported(m: AuthMethod, supported: seq<string>) {
    var want := Wanted(m);
    && want != ""
    && (|| want in supported
        || ((want == Name(TLS) || want == Name(SelfSignedTLS))
            && (Name(TLS) in supported || Name(SelfSignedTLS) in supported))
        || want == Name(NoAuth))
  }

  datatype Selection =
    | Selected(chosen: AuthMethod, fallback: bool)
    | NotSupported(chosen: AuthMethod, supported: seq<string>)
    | Invalid(chosen: AuthMethod)

  /** `selectAuthMethodFromSupported` on the normalised list. */
  function Choose(c: Credentials, supported: seq<string>): Selection {
    if supported != [] then
      if c.configured != Unset then
        if MethodSupported(c.configured, supported) then Validated(c, c.configured, false)
        else NotSupported(c.configured, supported)
      else if c.key.Some? && MethodSupported(PrivateKeyJWT, supported) then Validated(c, PrivateKeyJWT, false)
      else if c.key.Some? && ExactMatch(TLS, supported) then Validated(c, TLS, false)
      else if c.key.Some? && ExactMatch(SelfSignedTLS, supported) then Validated(c, SelfSignedTLS, false)
      else if c.key.Some? && MethodSupported(TLS, supported) then Validated(c, TLS, false)
      else if HasSecret(c) && MethodSupported(SecretJWT, supported) then Validated(c, SecretJWT, false)
      else if HasSecret(c) && MethodSupported(Post, supported) then Validated(c, Post, false)
      else if HasSecret(c) && MethodSupported(Basic, supported) then Validated(c, Basic, false)
      else if c.key.Some? && MethodSupported(Post, supported) then Validated(c, Post, false)
      else if MethodSupported(NoAuth, supported) then Validated(c, NoAuth, false)
      else NotSupported(Post, supported)
    else if c.configured != Unset then Validated(c, c.configured, false)
    else Validated(c, Post, true)
  }

  /** `validateResolvedAuthMethod`. */
  predicate Usable(c: Credentials, m: AuthMethod) {
    match m
    case Basic => HasSecret(c)
    case Post => HasSecret(c)
    case SecretJWT => HasSecret(c)
    case PrivateKeyJWT => c.key.Some?
    case TLS => HasCertificate(c)
    case SelfSignedTLS => HasCertificate(c)
    case NoAuth => true
    case Unset => false
    case Unknown(_) => false
  }

  function Validated(c: Credentials, m: AuthMethod, fallback: bool): Selection {
    if Usable(c, m) then Selected(m, fallback) else Invalid(m)
  }

  function Select(c: Credentials, advertised: seq<string>): Selection {
    Choose(c, Normalized(advertised))
  }

  /** The distinct names a provider advertises, however it spells them. */
  ghost function Names(advertised: seq<string>): set<string> {
    (set m | m in advertised :: Normalize(m)) - {""}
  }

  lemma {:induction false} NormalizedNames(advertised: seq<string>)
    ensures (set name | name in Normalized(advertised)) == Names(advertised)
    ensures forall name :: name in Normalized(advertised) <==> name in Names(advertised)
  {
    if advertised != [] {
      var n := |advertised| - 1;
      NormalizedNames(advertised[..n]);
      assert advertised == advertised[..n] + [advertised[n]];
      assert forall m :: m in advertised <==> m in advertised[..n] || m == advertised[n];
    }
  }

  lemma OnlyNone(m: AuthMethod)
    requires m in {PrivateKeyJWT, TLS, SelfSignedTLS, SecretJWT, Post, Basic}
    ensures !MethodSupported(m, [Name(NoAuth)]) && !ExactMatch(m, [Name(NoAuth)])
  {}

  lemma OneNormalName(name: string)
    requires name != "" && InNormalForm(name)
    ensures Normalized([name]) == [name]
  {
    NormalFormStays(name);
    assert Normalized([]) == [] && [name][..0] == [];
  }

  /** A provider that offers no client authentication at all gets none, key or no key. */
  lemma NothingOffered(c: Credentials)
    requires c.configured == Unset
    ensures Select(c, [Name(NoAuth)]) == Selected(NoAuth, false)
  {
    OnlyNone(PrivateKeyJWT);
    OnlyNone(TLS);
    OnlyNone(SelfSignedTLS);
    OnlyNone(SecretJWT);
    OnlyNone(Post);
    OnlyNone(Basic);
    OneNormalName(Name(NoAuth));
  }

  /** One that offers private_key_jwt gets that from a client with a key. */
  lemma KeyOffered(c: Credentials)
    requires c.configured == Unset && c.key.Some?
    ensures Select(c, [Name(PrivateKeyJWT)]) == Selected(PrivateKeyJWT, false)
  {
    OneNormalName(Name(PrivateKeyJWT));
  }

  /** The same outcome, up to the list an error message quotes. */
  predicate SameOutcome(s: Selection, s': Selection) {
    s == s' || (s.NotSupported? && s'.NotSupported? && s.chosen == s'.chosen)
  }

  lemma ChooseByMembership(c: Credentials, s: seq<string>, s': seq<string>)
    requires forall name :: name in s <==> name in s'
    ensures SameOutcome(Choose(c, s), Choose(c, s'))
  {
    assert s != [] ==> s[0] in s';
    assert s' != [] ==> s'[0] in s;
    forall m: AuthMethod
      ensures MethodSupported(m, s) == MethodSupported(m, s') && ExactMatch(m, s) == ExactMatch(m, s') {}
  }

  /** The outcome depends on the set of names alone: not on order, repetition or blanks. */
  lemma OutcomeDependsOnNames(c: Credentials, advertised: seq<string>, advertised': seq<string>)
    requires Names(advertised) == Names(advertised')
    ensures SameOutcome(Select(c, advertised), Select(c, advertised'))
  {
    var s, s' := Normalized(advertised), Normalized(advertised');
    assert forall name :: name in s <==> name in s' by {
      NormalizedNames(advertised);
      NormalizedNames(advertised');
    }
    ChooseByMembership(c, s, s');
  }

  /** A lower-case word with white space around it. */
  datatype Spelling = Spelling(left: string, core: string, right: string)

  predicate Spells(p: Spelling, name: string) {
    Blank(p.left) && Blank(p.right) && ToLower(name) == p.left + p.core + p.right
  }

  /** `name'` is `name` in other letter case, with other white space around it. */
  ghost predicate Respelled(name: string, name': string) {
    exists p, p' :: Spells(p, name) && Spells(p', name') && p.core == p'.core
  }

  lemma RespelledNormalizesAlike(name: string, name': string)
    ensures Respelled(name, name') ==> Normalize(name) == Normalize(name')
  {
    if Respelled(name, name') {
      var p, p' :| Spells(p, name) && Spells(p', name') && p.core == p'.core;
      TrimIgnoresPadding(p.left, p.core, p.right);
      TrimIgnoresPadding(p'.left, p'.core, p'.right);
    }
  }

  ghost predicate RespelledIn(name: string, advertised: seq<string>) {
    exists m :: m in advertised && Respelled(name, m)
  }

  ghost predicate AllRespelled(advertised: seq<string>, advertised': seq<string>) {
    forall m :: m in advertised ==> RespelledIn(m, advertised')
  }

  lemma RespelledNames(advertised: seq<string>, advertised': seq<string>)
    ensures AllRespelled(advertised, advertised') ==> Names(advertised) <= Names(advertised')
  {
    if AllRespelled(advertised, advertised') {
      forall name | name in Names(advertised) ensures name in Names(advertised') {
        var m :| m in advertised && Normalize(m) == name;
        assert RespelledIn(m, advertised');
        forall m' | m' in advertised' ensures Respelled(m, m') ==> Normalize(m') == name {
          RespelledNormalizesAlike(m, m');
        }
      }
    }
  }

  /** Permuting, duplicating, re-casing or padding the advertised list never changes the outcome. */
  lemma SpellingNeverMatters(c: Credentials, advertised: seq<string>, advertised': seq<string>)
    requires AllRespelled(advertised, advertised') && AllRespelled(advertised', advertised)
    ensures SameOutcome(Select(c, advertised), Select(c, advertised'))
  {
    RespelledNames(advertised, advertised');
    RespelledNames(advertised', advertised);
    OutcomeDependsOnNames(c, advertised, advertised');
  }

  /** The provider names the method, or the method is mTLS and it names the other flavour, or it is "none". */
  ghost predicate Offers(names: set<string>, m: AuthMethod) {
    var want := Wanted(m);
    || want in names
    || ((want == Name(TLS) || want == Name(SelfSignedTLS)) && (Name(TLS) in names || Name(SelfSignedTLS) in names))
    || want == Name(NoAuth)
  }

  /** A choice is usable, offered, the configured one if any, and leaves the fallback open
      only when nothing was said at all. */
  ghost predicate SoundChoice(c: Credentials, names: set<string>, m: AuthMethod, fallback: bool) {
    && Usable(c, m)
    && (fallback <==> names == {} && c.configured == Unset)
    && (fallback ==> m == Post)
    && (c.configured != Unset ==> m == c.configured)
    && (names != {} ==> Offers(names, m))
  }

  lemma ChosenIsSupported(c: Credentials, s: seq<string>)
    requires s != [] && Choose(c, s).Selected?
    ensures ExactMatch(Choose(c, s).chosen, s) || MethodSupported(Choose(c, s).chosen, s)
    ensures !Choose(c, s).fallback && (c.configured != Unset ==> Choose(c, s).chosen == c.configured)
  {}

  lemma ChooseIsSound(c: Credentials, s: seq<string>, names: set<string>)
    requires forall name :: name in s <==> name in names
    requires Choose(c, s).Selected?
    ensures SoundChoice(c, names, Choose(c, s).chosen, Choose(c, s).fallback)
  {
    var m := Choose(c, s).chosen;
    if s == [] {
      assert names == {};
    } else {
      assert s[0] in names;
      ChosenIsSupported(c, s);
    }
  }

  lemma SelectedIsUsableAndOffered(c: Credentials, advertised: seq<string>)
    requires Select(c, advertised).Selected?
    ensures SoundChoice(c, Names(advertised), Select(c, advertised).chosen, Select(c, advertised).fallback)
  {
    NormalizedNames(advertised);
    ChooseIsSound(c, Normalized(advertised), Names(advertised));
  }

  // ---- Which method is chosen ----

  /** What it takes to consider a method when nothing was configured. */
  datatype Wish = Wish(needsKey: bool, wanted: AuthMethod)

  /** In order of preference; "none" comes after all of them. */
  const WISHES: seq<Wish> := [
    Wish(true, PrivateKeyJWT), Wish(true, TLS), Wish(true, SelfSignedTLS),
    Wish(false, SecretJWT), Wish(false, Post), Wish(false, Basic), Wish(true, Post)]

  /** The provider names the method and the client has what it takes to consider it. */
  ghost predicate Granted(c: Credentials, names: set<string>, wish: Wish) {
    Name(wish.wanted) in names && if wish.needsKey then c.key.Some? else !Blank(c.secret)
  }

  /** The first wish granted, from the given one on. */
  ghost function FirstWish(c: Credentials, names: set<string>, from: nat): (i: nat)
    requires from <= |WISHES|
    ensures from <= i <= |WISHES|
    ensures forall j :: from <= j < i ==> !Granted(c, names, WISHES[j])
    ensures i < |WISHES| ==> Granted(c, names, WISHES[i])
    decreases |WISHES| - from
  {
    if from == |WISHES| || Granted(c, names, WISHES[from]) then from else FirstWish(c, names, from + 1)
  }

  /** The outcome once a wish is granted. A certificate may still be missing for mTLS; post
      wished for with a key alone lacks a secret. */
  function OutcomeOf(c: Credentials, wish: Wish): Selection {
    if wish.wanted in {TLS, SelfSignedTLS} && !HasCertificate(c) then Invalid(wish.wanted)
    else if wish == Wish(true, Post) then Invalid(Post)
    else Selected(wish.wanted, false)
  }

  lemma SupportedByName(m: AuthMethod, supported: seq<string>)
    requires m in {PrivateKeyJWT, SecretJWT, Post, Basic}
    ensures MethodSupported(m, supported) <==> Name(m) in supported
  {}

  lemma TlsByName(supported: seq<string>)
    ensures ExactMatch(TLS, supported) <==> Name(TLS) in supported
    ensures ExactMatch(SelfSignedTLS, supported) <==> Name(SelfSignedTLS) in supported
    ensures MethodSupported(TLS, supported) <==> Name(TLS) in supported || Name(SelfSignedTLS) in supported
    ensures MethodSupported(NoAuth, supported)
  {}

  /** What `Choose` asks of the list, in its order. */
  datatype Offered = Offered(privateKey: bool, tls: bool, selfSigned: bool, secretJwt: bool, post: bool, basic: bool)

  function ChooseFrom(c: Credentials, o: Offered): Selection {
    if c.key.Some? && o.privateKey then Selected(PrivateKeyJWT, false)
    else if c.key.Some? && o.tls then if HasCertificate(c) then Selected(TLS, false) else Invalid(TLS)
    else if c.key.Some? && o.selfSigned then
      if HasCertificate(c) then Selected(SelfSignedTLS, false) else Invalid(SelfSignedTLS)
    else if HasSecret(c) && o.secretJwt then Selected(SecretJWT, false)
    else if HasSecret(c) && o.post then Selected(Post, false)
    else if HasSecret(c) && o.basic then Selected(Basic, false)
    else if c.key.Some? && o.post then Invalid(Post)
    else Selected(NoAuth, false)
  }

  ghost function OfferIn(names: set<string>): Offered {
    Offered(Name(PrivateKeyJWT) in names, Name(TLS) in names, Name(SelfSignedTLS) in names,
            Name(SecretJWT) in names, Name(Post) in names, Name(Basic) in names)
  }

  lemma ChooseByOffer(c: Credentials, supported: seq<string>, names: set<string>)
    requires c.configured == Unset && supported != [] && forall name :: name in supported <==> name in names
    ensures Choose(c, supported) == ChooseFrom(c, OfferIn(names))
  {
    SupportedByName(PrivateKeyJWT, supported);
    SupportedByName(SecretJWT, supported);
    SupportedByName(Post, supported);
    SupportedByName(Basic, supported);
    TlsByName(supported);
  }

  lemma OfferByWishes(c: Credentials, names: set<string>)
    ensures var i := FirstWish(c, names, 0);
            ChooseFrom(c, OfferIn(names)) == if i < |WISHES| then OutcomeOf(c, WISHES[i]) else Selected(NoAuth, false)
  {
    TrimmedAway(c.secret);
    var i := FirstWish(c, names, 0);
    assert i > 0 ==> !Granted(c, names, WISHES[0]);
    assert i > 1 ==> !Granted(c, names, WISHES[1]);
    assert i > 2 ==> !Granted(c, names, WISHES[2]);
    assert i > 3 ==> !Granted(c, names, WISHES[3]);
    assert i > 4 ==> !Granted(c, names, WISHES[4]);
    assert i > 5 ==> !Granted(c, names, WISHES[5]);
    assert i > 6 ==> !Granted(c, names, WISHES[6]);
  }

  /** With nothing configured and something advertised, the first wish that is granted decides. */
  lemma FirstWishDecides(c: Credentials, advertised: seq<string>)
    requires c.configured == Unset && Names(advertised) != {}
    ensures var i := FirstWish(c, Names(advertised), 0);
            Select(c, advertised) == if i < |WISHES| then OutcomeOf(c, WISHES[i]) else Selected(NoAuth, false)
  {
    NormalizedNames(advertised);
    NothingNamed(advertised);
    ChooseByOffer(c, Normalized(advertised), Names(advertised));
    OfferByWishes(c, Names(advertised));
  }

  /** So a client goes without authentication just when no wish is granted. */
  lemma NoAuthJustWhenNoWish(c: Credentials, advertised: seq<string>)
    requires c.configured == Unset && Names(advertised) != {}
    ensures Select(c, advertised) == Selected(NoAuth, false) <==>
              forall wish :: wish in WISHES ==> !Granted(c, Names(advertised), wish)
  {
    FirstWishDecides(c, advertised);
    var i := FirstWish(c, Names(advertised), 0);
    if i < |WISHES| {
      assert WISHES[i] in WISHES && WISHES[i].wanted != NoAuth;
    }
  }

  lemma NothingNamed(advertised: seq<string>)
    ensures Normalized(advertised) == [] <==> Names(advertised) == {}
  {
    NormalizedNames(advertised);
    forall name | name in Normalized(advertised) ensures name in Names(advertised) {}
    if |Normalized(advertised)| > 0 {
      assert Normalized(advertised)[0] in Normalized(advertised);
    }
  }

  /** With a method configured there is no choice: it must be offered, and usable. */
  lemma ConfiguredDecides(c: Credentials, advertised: seq<string>)
    requires c.configured != Unset
    ensures var names, m := Names(advertised), c.configured;
            && (Select(c, advertised) == Selected(m, false) <==>
                  Usable(c, m) && (names != {} ==> Wanted(m) != "" && Offers(names, m)))
            && (Select(c, advertised).NotSupported? <==> names != {} && !(Wanted(m) != "" && Offers(names, m)))
            && (!Select(c, advertised).Selected? ==> Select(c, advertised).chosen == m)
  {
    NormalizedNames(advertised);
    NothingNamed(advertised);
  }

  /** With nothing said on either side it is post, with the fallback open, for a client with a secret. */
  lemma NothingSaid(c: Credentials, advertised: seq<string>)
    requires c.configured == Unset && Names(advertised) == {}
    ensures Select(c, advertised) == if Blank(c.secret) then Invalid(Post) else Selected(Post, true)
  {
    TrimmedAway(c.secret);
    NothingNamed(advertised);
  }

  /** What a method takes: a secret, a key, a certificate, or nothing. */
  lemma UsableJustWhen(c: Credentials, m: AuthMethod)
    ensures m in {Basic, Post, SecretJWT} ==> (Usable(c, m) <==> !Blank(c.secret))
    ensures m == PrivateKeyJWT ==> (Usable(c, m) <==> c.key.Some?)
    ensures m in {TLS, SelfSignedTLS} ==> (Usable(c, m) <==> c.key.Some? && c.key.value.hasCertificate)
    ensures Usable(c, NoAuth) && !Usable(c, Unset) && (m.Unknown? ==> !Usable(c, m))
  {
    TrimmedAway(c.secret);
  }

  /** The names as providers write them. */
  lemma NamesAre(m: AuthMethod)
    ensures m == Basic <==> Wanted(m) == "client_secret_basic" && !m.Unknown?
    ensures m == Post <==> Wanted(m) == "client_secret_post" && !m.Unknown?
    ensures m == SecretJWT <==> Wanted(m) == "client_secret_jwt" && !m.Unknown?
    ensures m == PrivateKeyJWT <==> Wanted(m) == "private_key_jwt" && !m.Unknown?
    ensures m == TLS <==> Wanted(m) == "tls_client_auth" && !m.Unknown?
    ensures m == SelfSignedTLS <==> Wanted(m) == "self_signed_tls_client_auth" && !m.Unknown?
    ensures m == NoAuth <==> Wanted(m) == "none" && !m.Unknown?
  {}

  /** A configured name that is none of these is compared in normal form. */
  lemma UnknownNames(left: string, core: string, right: string)
    requires Blank(left) && Blank(right) && InNormalForm(core)
    ensures Wanted(Unknown(core)) == core
    ensures ToLower(left + core + right) == left + core + right ==> Wanted(Unknown(left + core + right)) == core
  {
    NormalFormStays(core);
    TrimmedToCore(left, core, right);
  }

  // ---- The order of the normalised names ----

  predicate FirstAt(advertised: seq<string>, i: nat, name: string) {
    && i < |advertised| && Normalize(advertised[i]) == name
    && forall j :: 0 <= j < i ==> Normalize(advertised[j]) != name
  }

  /** Where each normalised name first occurs in what was advertised. */
  ghost predicate FirstOccurrences(advertised: seq<string>, normalized: seq<string>, at: seq<nat>) {
    && |at| == |normalized|
    && (forall k :: 0 <= k < |at| ==> FirstAt(advertised, at[k], normalized[k]))
    && (forall k, l :: 0 <= k < l < |at| ==> at[k] < at[l])
  }

  /** The normalised names stand in the order in which they first occur. */
  lemma {:induction false} NamesInOrder(advertised: seq<string>) returns (at: seq<nat>)
    ensures FirstOccurrences(advertised, Normalized(advertised), at)
  {
    if advertised == [] {
      at := [];
    } else {
      var n := |advertised| - 1;
      var before, name := Normalized(advertised[..n]), Normalize(advertised[n]);
      at := NamesInOrder(advertised[..n]);
      forall k | 0 <= k < |at| ensures FirstAt(advertised, at[k], before[k]) && at[k] < n {
        StaysFirst(advertised, n, at[k], before[k]);
      }
      if name != "" && name !in before {
        NewName(advertised);
        at := at + [n];
      }
    }
  }

  lemma StaysFirst(advertised: seq<string>, n: nat, i: nat, name: string)
    requires n <= |advertised| && FirstAt(advertised[..n], i, name)
    ensures FirstAt(advertised, i, name) && i < n
  {
    forall j | 0 <= j < i ensures Normalize(advertised[j]) != name {
      assert advertised[..n][j] == advertised[j];
    }
  }

  /** A name that is new to the list has not occurred in any spelling. */
  lemma NewName(advertised: seq<string>)
    requires advertised != []
    requires var n, name := |advertised| - 1, Normalize(advertised[|advertised| - 1]);
             name != "" && name !in Normalized(advertised[..n])
    ensures FirstAt(advertised, |advertised| - 1, Normalize(advertised[|advertised| - 1]))
  {
    var n, name := |advertised| - 1, Normalize(advertised[|advertised| - 1]);
    NormalizedNames(advertised[..n]);
    forall i | 0 <= i < n ensures Normalize(advertised[i]) != name {
      assert advertised[..n][i] in advertised[..n];
    }
  }
}
