/** The server's side of the Client Update Protocol, as the mock server plays it. */
module MockServer {
  import opened Wrappers
  import opened MachineInts
  import opened Text
  import opened HttpUri
  import opened Cup

  datatype PrivateKeyAndId = PrivateKeyAndId(id: PublicKeyId, key: PrivateKey)

  /** The first key with the id. */
  function FirstKey(keys: seq<PrivateKeyAndId>, id: PublicKeyId): Option<PrivateKey> {
    if keys == [] then None
    else if keys[0].id == id then Some(keys[0].key)
    else FirstKey(keys[1..], id)
  }

  datatype PrivateKeys = PrivateKeys(latest: PrivateKeyAndId, historical: seq<PrivateKeyAndId>) {
    function All(): seq<PrivateKeyAndId> {
      [latest] + historical
    }

    /** `find`. */
    method Find(id: PublicKeyId) returns (key: Option<PrivateKey>)
      ensures key == FirstKey(All(), id)
    {
      if latest.id == id {
        return Some(latest.key);
      }
      assert All()[1..] == historical;
      for i := 0 to |historical|
        invariant FirstKey(historical, id) == FirstKey(historical[i..], id)
      {
        if historical[i].id == id {
          return Some(historical[i].key);
        }
        assert historical[i..][1..] == historical[i + 1..];
      }
      return None;
    }
  }

  /** The form decoding of the URL library; all that is assumed of it is that plain text stays as it is. */
  datatype FormDecoding = FormDecoding(decode: string -> string) {
    ghost predicate Usual() {
      forall s :: PlainText(s) ==> decode(s) == s
    }
  }

  predicate PlainText(s: string) {
    forall i :: 0 <= i < |s| ==> IsDigit(s[i]) || 'a' <= s[i] <= 'z' || s[i] == ':'
  }

  /** The first pair of a query: empty segments are skipped, and a segment without an equals sign is a
      name with an empty value. */
  function FirstPair(f: FormDecoding, segments: seq<string>): Option<(string, string)> {
    if segments == [] then None
    else if segments[0] == "" then FirstPair(f, segments[1..])
    else
      match SplitOnce(segments[0], '=')
      case None => Some((f.decode(segments[0]), f.decode("")))
      case Some((name, value)) => Some((f.decode(name), f.decode(value)))
  }

  /** The server panics on a request with another query. */
  datatype Induced = NoInducedEtag | Panics | InducedEtag(etag: string)

  /** `make_etag`; the URI is given as the path and query that the server is asked for. */
  function MakeEtag(
    c: Crypto, f: FormDecoding, requestBody: Bytes, uri: PathAndQuery, keys: PrivateKeys, responseBody: Bytes): Induced
  {
    if Print(uri) == "/" then NoInducedEtag
    else
      match FirstPair(f, Parameters(uri.query))
      case None => Panics
      case Some((name, value)) =>
        if name != "cup2key" then Panics
        else
          match SplitOnce(value, ':')
          case None => Panics
          case Some((idText, _)) =>
            match ParseUnsigned(idText, U64_MAX)
            case None => Panics
            case Some(id) =>
              match FirstKey(keys.All(), id)
              case None => NoInducedEtag
              case Some(key) =>
                var signature := c.sign(key, TransactionHash(c, requestBody, responseBody, value));
                InducedEtag(HexEncode(c.toDer(signature)) + ":" + HexEncode(c.sha256(requestBody)))
  }

  /** Whether and how the server answers: it gives no ETag when it is asked for the root, or with a key that it
      does not have; it panics unless the first pair of the query is named cup2key and its value is the numeral
      of a key id, a colon and anything; and otherwise the ETag is a signature and the hash of the request. */
  lemma ServerAnswers(
    c: Crypto, f: FormDecoding, requestBody: Bytes, uri: PathAndQuery, keys: PrivateKeys, responseBody: Bytes)
    ensures var induced := MakeEtag(c, f, requestBody, uri, keys, responseBody);
            var pair := FirstPair(f, Parameters(uri.query));
            if uri == PathAndQuery("/", None) then induced == NoInducedEtag
            else if pair.None? || pair.value.0 != "cup2key" || ':' !in pair.value.1 then induced == Panics
            else
              && SplitOnce(pair.value.1, ':').Some?
              && var (idText, rest) := SplitOnce(pair.value.1, ':').value;
              var id := ParseUnsigned(idText, 0xFFFF_FFFF_FFFF_FFFF);
              && pair.value.1 == idText + ":" + rest && ':' !in idText
              && if id.None? then induced == Panics
                 else
                   match FirstKey([keys.latest] + keys.historical, id.value)
                   case None => induced == NoInducedEtag
                   case Some(key) =>
                     induced == InducedEtag(
                       HexEncode(c.toDer(c.sign(key, c.sha256(Preimage(c, requestBody, responseBody, pair.value.1)))))
                       + ":" + HexEncode(c.sha256(requestBody)))
  {
    hide FirstPair, HexEncode, ParseUnsigned, SplitOnce, FirstKey;
    var pair := FirstPair(f, Parameters(uri.query));
    RootPrints(uri);
    if pair.Some? {
      SplitOnceCuts(pair.value.1, ':');
      HashIs(c, requestBody, responseBody, pair.value.1);
    }
  }

  lemma RootPrints(uri: PathAndQuery)
    ensures Print(uri) == "/" <==> uri == PathAndQuery("/", None)
  {
    if uri.query.Some? {
      assert |Print(uri)| == |uri.path| + 1 + |uri.query.value|;
      assert Print(uri)[|uri.path|] == '?';
    }
  }

  // The two sides together

  lemma {:induction false} HexIsPlain(bytes: Bytes)
    ensures PlainText(HexEncode(bytes)) && ':' !in HexEncode(bytes) && '\"' !in HexEncode(bytes)
  {
    HexRoundTrip(bytes);
  }

  lemma KeyAndNonceIsPlain(id: PublicKeyId, nonce: Nonce)
    ensures PlainText(KeyAndNonce(id, nonce))
    ensures KeyAndNonce(id, nonce) == PrintNat(id) + ":" + HexEncode(nonce)
    ensures SplitOnce(KeyAndNonce(id, nonce), ':') == Some((PrintNat(id), HexEncode(nonce)))
    ensures ParseUnsigned(PrintNat(id), U64_MAX) == Some(id)
  {
    hide PrintNat, HexEncode;
    PrintNatDigits(id);
    ParsePrinted(id, U64_MAX);
    HexIsPlain(nonce);
    SplitOnceFinds(PrintNat(id), HexEncode(nonce), ':');
    assert KeyAndNonce(id, nonce) == PrintNat(id) + [':'] + HexEncode(nonce);
  }

  /** The server asked for this key with this nonce, over this pair of bodies, answers with an ETag the
      client accepts, in whichever of the three ways the header is quoted. */
  lemma EtagIsAccepted(
    c: Crypto, f: FormDecoding, h: Handler, meta: RequestMetadata, uri: PathAndQuery, keys: PrivateKeys,
    responseBody: Bytes, key: PrivateKey, how: Quoting)
    requires c.Correct()
    requires FirstPair(f, Parameters(uri.query)) == Some(("cup2key", KeyAndNonce(meta.publicKeyId, meta.nonce)))
    requires FirstKey(keys.All(), meta.publicKeyId) == Some(key)
    requires meta.publicKeyId in h.parametersById && h.parametersById[meta.publicKeyId] == c.publicOf(key)
    ensures var induced := MakeEtag(c, f, meta.requestBody, uri, keys, responseBody);
            && induced.InducedEtag?
            && var response := Response(Etag(Quote(how, induced.etag)), responseBody);
               h.VerifyResponse(c, meta, response, meta.publicKeyId).Success?
  {
    hide FirstKey, PrintNat, HexEncode, HexDecode, KeyAndNonce, TransactionHash, FirstPair, ParseUnsigned, ParseEtag,
      Quote, Handler.VerifyResponse;
    var param := KeyAndNonce(meta.publicKeyId, meta.nonce);
    KeyAndNonceIsPlain(meta.publicKeyId, meta.nonce);
    RootHasNoPair(f, uri);
    var hash := TransactionHash(c, meta.requestBody, responseBody, param);
    HashIs(c, meta.requestBody, responseBody, param);
    var der := c.toDer(c.sign(key, hash));
    var signatureText, hashText := HexEncode(der), HexEncode(c.sha256(meta.requestBody));
    var etag := signatureText + ":" + hashText;
    HexRoundTrip(der);
    HexRoundTrip(c.sha256(meta.requestBody));
    HexIsPlain(der);
    HexIsPlain(c.sha256(meta.requestBody));
    ParseEtagUnquotes(how, etag);
    var response := Response(Etag(Quote(how, etag)), responseBody);
    assert ParseEtag(response.etag.text) == signatureText + ":" + hashText;
    AcceptedIffAuthentic(h, c, meta, response, meta.publicKeyId, der);
  }

  lemma RootHasNoPair(f: FormDecoding, uri: PathAndQuery)
    requires FirstPair(f, Parameters(uri.query)).Some?
    ensures Print(uri) != "/"
  {
    if uri.query.Some? {
      assert |Print(uri)| == |uri.path| + 1 + |uri.query.value|;
      assert Print(uri)[|uri.path|] == '?';
    }
  }

  /** Appending a parameter changes what the server reads first only if it read nothing before. */
  lemma {:induction false} FirstPairAfterAppend(f: FormDecoding, segments: seq<string>, value: string)
    requires f.Usual() && PlainText(value)
    ensures FirstPair(f, segments + ["cup2key=" + value]) ==
            if FirstPair(f, segments).Some? then FirstPair(f, segments) else Some(("cup2key", value))
  {
    if segments == [] {
      assert "cup2key=" + value == "cup2key" + ['='] + value;
      SplitOnceFinds("cup2key", value, '=');
      assert PlainText("cup2key");
    } else {
      assert (segments + ["cup2key=" + value])[1..] == segments[1..] + ["cup2key=" + value];
      if segments[0] == "" {
        FirstPairAfterAppend(f, segments[1..], value);
      }
    }
  }

  /** The server reads no pair exactly from an absent query, or one of nothing but ampersands. */
  lemma NoPairIffOnlyAmpersands(f: FormDecoding, query: Option<string>)
    ensures FirstPair(f, Parameters(query)).None? <==>
            query.None? || forall i :: 0 <= i < |query.value| ==> query.value[i] == '&'
  {
    if query.Some? {
      OnlyAmpersands(f, query.value);
    }
  }

  lemma {:induction false} OnlyAmpersands(f: FormDecoding, q: string)
    ensures FirstPair(f, Split(q, '&')).None? <==> forall i :: 0 <= i < |q| ==> q[i] == '&'
  {
    if q == "" {
      assert Split(q, '&') == [""];
      assert FirstPair(f, [""]) == FirstPair(f, [""][1..]);
    } else if q[0] == '&' {
      OnlyAmpersands(f, q[1..]);
      assert Split(q, '&')[1..] == Split(q[1..], '&');
      assert forall i :: 1 <= i < |q| ==> q[i] == q[1..][i - 1];
    }
  }

  // Keys

  /** Each private key stands where its public key does, with the same id. */
  ghost predicate Matching(c: Crypto, publics: seq<PublicKeyAndId>, privates: seq<PrivateKeyAndId>) {
    && |publics| == |privates|
    && forall i :: 0 <= i < |publics| ==>
         publics[i].id == privates[i].id && publics[i].key == c.publicOf(privates[i].key)
  }

  lemma {:induction false} FirstKeyIsFirst(keys: seq<PrivateKeyAndId>, i: nat)
    requires i < |keys| && forall j :: 0 <= j < i ==> keys[j].id != keys[i].id
    ensures FirstKey(keys, keys[i].id) == Some(keys[i].key)
  {
    if i > 0 {
      FirstKeyIsFirst(keys[1..], i - 1);
    }
  }

  /** The client takes the last key with an id and the server the first, so they agree on an id exactly
      when these two are a pair; that is so when no id occurs twice. */
  lemma LookupsAgreeIff(
    c: Crypto, publics: seq<PublicKeyAndId>, privates: seq<PrivateKeyAndId>, first: nat, last: nat)
    requires Matching(c, publics, privates)
    requires first <= last < |publics| && publics[first].id == publics[last].id
    requires forall j :: 0 <= j < first || last < j < |publics| ==> publics[j].id != publics[first].id
    ensures var id := publics[first].id;
            && id in KeyMap(publics) && FirstKey(privates, id).Some?
            && (KeyMap(publics)[id] == c.publicOf(FirstKey(privates, id).value)
                <==> publics[first].key == publics[last].key)
    ensures DistinctKeyIds(publics) ==> first == last
  {
    KeyMapTakesTheLast(publics, last);
    FirstKeyIsFirst(privates, first);
  }

  // The exchange

  /** For matching key pairs with distinct ids, and a service URL whose query, if there is one, is nothing
      but ampersands: the client decorates the URL, the server finds the key and
      the nonce in it, and the client accepts the server's ETag, for every request and response body,
      every key and every nonce, and however the ETag is quoted.  The decorated URL, if the URI library takes
      its text back at all, is sent as it was decorated. */
  lemma ExchangeSucceeds(
    c: Crypto, f: FormDecoding, lib: UriLibrary, publics: PublicKeys, privates: PrivateKeys, url: string, u: Uri,
    requestBody: Bytes, responseBody: Bytes, nonce: Nonce, how: Quoting)
    requires c.Correct() && f.Usual() && lib.grammar.Usual() && lib.Faithful()
    requires Matching(c, AllKeys(publics), privates.All()) && DistinctKeyIds(AllKeys(publics))
    requires lib.fromText(url) == Some(u) && SoundUri(lib.grammar, u) && Located(u)
    requires QueryOf(u).None? || forall i :: 0 <= i < |QueryOf(u).value| ==> QueryOf(u).value[i] == '&'
    ensures var d := Decorated(lib, url, publics.latest.id, nonce);
            && d.Success? && d.value.pathAndQuery.Some?
            && (lib.fromText(lib.toText(d.value)).Some? ==> lib.fromText(lib.toText(d.value)) == Some(d.value))
            && var induced := MakeEtag(c, f, requestBody, d.value.pathAndQuery.value, privates, responseBody);
               && induced.InducedEtag?
               && NewHandler(publics).VerifyResponse(
                    c, RequestMetadata(requestBody, publics.latest.id, nonce),
                    Response(Etag(Quote(how, induced.etag)), responseBody), publics.latest.id).Success?
  {
    hide MakeEtag, Handler.VerifyResponse, AppendQueryParameter, FirstPair, KeyAndNonce, PlainText, KeyMap, FirstKey,
      Parameters, PrintNat, HexEncode, ParseUnsigned, SplitOnce;
    var id := publics.latest.id;
    var param := KeyAndNonce(id, nonce);
    KeyAndNonceIsPlain(id, nonce);
    PlainIsQueryText(lib.grammar, param);
    AppendAddsOneParameter(lib.grammar, u, "cup2key", param);
    var v := AppendQueryParameter(lib.grammar, u, "cup2key", param).value;
    assert lib.WithAnotherPath(lib.fromText(url).value, v);
    assert "cup2key" + "=" + param == "cup2key=" + param;
    NoPairIffOnlyAmpersands(f, QueryOf(u));
    FirstPairAfterAppend(f, Parameters(QueryOf(u)), param);
    LookupsAgreeIff(c, AllKeys(publics), privates.All(), 0, 0);
    EtagIsAccepted(c, f, NewHandler(publics), RequestMetadata(requestBody, id, nonce), v.pathAndQuery.value, privates,
                   responseBody, FirstKey(privates.All(), id).value, how);
  }

  lemma PlainIsQueryText(g: Grammar, s: string)
    requires g.Usual() && PlainText(s)
    ensures g.QueryText(s) && g.QueryText("cup2key") && '&' !in s && '&' !in "cup2key"
  {
  }

  /** Decorating a URL: it is refused when it cannot be parsed, or has a scheme without an authority or the other
      way round; otherwise its parameters are those of before and then cup2key with the key id in decimal, a
      colon and the nonce in hexadecimal, and nothing else changes but an empty path. */
  lemma DecorationAddsKeyAndNonce(lib: UriLibrary, url: string, id: PublicKeyId, nonce: Nonce)
    requires lib.grammar.Usual()
    requires lib.fromText(url).Some? ==> SoundUri(lib.grammar, lib.fromText(url).value)
    ensures match lib.fromText(url)
            case None => Decorated(lib, url, id, nonce) == Failure(ParseError)
            case Some(u) =>
              var d := Decorated(lib, url, id, nonce);
              if u.scheme.Some? != u.authority.Some? then d == Failure(AppendQueryParameterError(InvalidUriParts))
              else
                && d.Success? && d.value.pathAndQuery.Some?
                && d.value.scheme == u.scheme && d.value.authority == u.authority
                && d.value.pathAndQuery.value.path == (if HasPath(u) then u.pathAndQuery.value.path else "/")
                && Parameters(d.value.pathAndQuery.value.query) ==
                   Parameters(QueryOf(u)) + ["cup2key=" + PrintNat(id) + ":" + HexEncode(nonce)]
  {
    hide AppendQueryParameter, KeyAndNonce, PlainText, Parameters, PrintNat, HexEncode, ParseUnsigned, SplitOnce;
    if lib.fromText(url).Some? {
      var param := KeyAndNonce(id, nonce);
      KeyAndNonceIsPlain(id, nonce);
      PlainIsQueryText(lib.grammar, param);
      AppendAddsOneParameter(lib.grammar, lib.fromText(url).value, "cup2key", param);
      assert "cup2key" + "=" + param == "cup2key=" + PrintNat(id) + ":" + HexEncode(nonce);
    }
  }

  /** With any other service URL the server reads a pair that was there before: it panics unless that
      pair is itself named cup2key. */
  lemma ExchangeNeedsBareQuery(
    c: Crypto, f: FormDecoding, g: Grammar, u: Uri, privates: PrivateKeys, id: PublicKeyId, nonce: Nonce,
    requestBody: Bytes, responseBody: Bytes)
    requires f.Usual() && g.Usual() && SoundUri(g, u) && Located(u)
    requires FirstPair(f, Parameters(QueryOf(u))).Some?
    ensures var r := AppendQueryParameter(g, u, "cup2key", KeyAndNonce(id, nonce));
            && r.Success? && r.value.pathAndQuery.Some?
            && FirstPair(f, Parameters(QueryOf(r.value))) == FirstPair(f, Parameters(QueryOf(u)))
            && (FirstPair(f, Parameters(QueryOf(u))).value.0 != "cup2key" ==>
                  MakeEtag(c, f, requestBody, r.value.pathAndQuery.value, privates, responseBody).Panics?)
  {
    hide AppendQueryParameter, FirstPair, KeyAndNonce, PlainText, PathOf, Parameters, FirstKey, PrintNat, HexEncode,
      ParseUnsigned, SplitOnce;
    var param := KeyAndNonce(id, nonce);
    KeyAndNonceIsPlain(id, nonce);
    PlainIsQueryText(g, param);
    AppendAddsOneParameter(g, u, "cup2key", param);
    assert "cup2key" + "=" + param == "cup2key=" + param;
    FirstPairAfterAppend(f, Parameters(QueryOf(u)), param);
    RootHasNoPair(f, AppendQueryParameter(g, u, "cup2key", param).value.pathAndQuery.value);
  }
}
