/** The client's side of the Client Update Protocol: requests carry a key id and a nonce, and
    responses a signature over both bodies and them. */
module Cup {
  import opened Wrappers
  import opened MachineInts
  import opened Text
  import opened HttpUri

  type PublicKeyId = u64
  type Bytes = seq<byte>
  type Nonce = b: Bytes | |b| == 32 witness seq(32, i => 0)

  datatype PublicKey = PublicKey(point: Bytes)
  datatype PrivateKey = PrivateKey(scalar: Bytes)
  datatype Signature = Signature(r: Bytes, s: Bytes)

  /** SHA-256, ECDSA over P-256 with its DER form, and the bytes of a string: not modelled but assumed. */
  datatype Crypto = Crypto(
    sha256: Bytes -> Bytes,
    publicOf: PrivateKey -> PublicKey,
    sign: (PrivateKey, Bytes) -> Signature,
    verify: (PublicKey, Bytes, Signature) -> bool,
    toDer: Signature -> Bytes,
    fromDer: Bytes -> Option<Signature>,
    utf8: string -> Bytes)
  {
    /** What is signed with a key verifies with its public key, also after its DER form. */
    ghost predicate Correct() {
      forall k, m :: verify(publicOf(k), m, sign(k, m)) && fromDer(toDer(sign(k, m))) == Some(sign(k, m))
    }

    /** Digests are 32 bytes long, and different strings have different bytes. */
    ghost predicate Sized() {
      (forall m :: |sha256(m)| == 32) && (forall s, t :: utf8(s) == utf8(t) ==> s == t)
    }

    predicate Collide(m: Bytes, n: Bytes) {
      m != n && sha256(m) == sha256(n)
    }
  }

  datatype DecorationError = SerializationError | ParseError | AppendQueryParameterError(error: UriError)

  datatype VerificationError =
    | EtagHeaderMissing
    | EtagNotString
    | EtagMalformed
    | RequestHashMalformed
    | RequestHashMismatch
    | SignatureMalformed
    | SpecifiedPublicKeyIdMissing
    | SignatureError

  datatype PublicKeyAndId = PublicKeyAndId(id: PublicKeyId, key: PublicKey)

  datatype PublicKeys = PublicKeys(latest: PublicKeyAndId, historical: seq<PublicKeyAndId>)

  datatype RequestMetadata = RequestMetadata(requestBody: Bytes, publicKeyId: PublicKeyId, nonce: Nonce)

  /** An ETag header is absent, is not a visible string, or is one. */
  datatype EtagHeader = NoEtag | NotAString | Etag(text: string)

  datatype Response = Response(etag: EtagHeader, body: Bytes)

  /** Turning text into a URI and back is the URI library's business. */
  datatype UriLibrary = UriLibrary(grammar: Grammar, fromText: string -> Option<Uri>, toText: Uri -> string) {
    /** A URI whose scheme and authority were parsed before, printed with another path and query, is either
        refused, because it is too long say, or parses to itself. */
    ghost predicate Faithful() {
      forall s: string, u: Uri ::
        fromText(s).Some? && WithAnotherPath(fromText(s).value, u) && fromText(toText(u)).Some? ==>
          fromText(toText(u)) == Some(u)
    }

    ghost predicate WithAnotherPath(parsed: Uri, u: Uri) {
      && u.scheme == parsed.scheme && u.authority == parsed.authority
      && Located(u) && SoundUri(grammar, u)
      && u.pathAndQuery.Some? && u.pathAndQuery.value.path != ""
    }
  }

  /** Printing the parts one after the other and cutting at the separators is such a library, and one that
      refuses nothing. */
  lemma SomeLibraryIsFaithful(g: Grammar)
    requires g.Usual()
    ensures UriLibrary(g, s => ParseUri(g, s), PrintUri).Faithful()
    ensures forall u: Uri :: Located(u) && SoundUri(g, u) && u.pathAndQuery.Some? && u.pathAndQuery.value.path != "" ==>
              ParseUri(g, PrintUri(u)).Some?
  {
    forall u: Uri | Located(u) && SoundUri(g, u) && u.pathAndQuery.Some? && u.pathAndQuery.value.path != ""
      ensures ParseUri(g, PrintUri(u)) == Some(u)
    {
      PrintedUriParses(g, u);
    }
  }

  /** A later key with the same id replaces an earlier one. */
  function KeyMap(keys: seq<PublicKeyAndId>): map<PublicKeyId, PublicKey> {
    if keys == [] then map[] else KeyMap(keys[..|keys| - 1])[keys[|keys| - 1].id := keys[|keys| - 1].key]
  }

  function AllKeys(keys: PublicKeys): seq<PublicKeyAndId> {
    [keys.latest] + keys.historical
  }

  /** The value of the query parameter; the same text goes into the signed hash. */
  function KeyAndNonce(id: PublicKeyId, nonce: Nonce): string {
    PrintNat(id) + ":" + HexEncode(nonce)
  }

  function TransactionHash(c: Crypto, requestBody: Bytes, responseBody: Bytes, param: string): Bytes {
    c.sha256(c.sha256(requestBody) + c.sha256(responseBody) + c.utf8(param))
  }

  /** A request under construction: its URI may be set, its body only read. */
  class CupRequest {
    var uri: string
    const body: Option<Bytes>

    constructor (uri: string, body: Option<Bytes>)
      ensures this.uri == uri && this.body == body
    {
      this.uri := uri;
      this.body := body;
    }
  }

  /** What decorating does to the URI of a request. */
  function Decorated(lib: UriLibrary, uri: string, id: PublicKeyId, nonce: Nonce): Result<Uri, DecorationError> {
    match lib.fromText(uri)
    case None => Failure(ParseError)
    case Some(u) =>
      match AppendQueryParameter(lib.grammar, u, "cup2key", KeyAndNonce(id, nonce))
      case Failure(e) => Failure(AppendQueryParameterError(e))
      case Success(v) => Success(v)
  }

  datatype Handler = Handler(parametersById: map<PublicKeyId, PublicKey>, latestPublicKeyId: PublicKeyId) {
    /** `decorate_request`, with the random nonce given. */
    method DecorateRequest(lib: UriLibrary, request: CupRequest, nonce: Nonce)
      returns (r: Result<RequestMetadata, DecorationError>)
      modifies request
      ensures var d := Decorated(lib, old(request.uri), latestPublicKeyId, nonce);
              && request.uri == (if d.Success? then lib.toText(d.value) else old(request.uri))
              && r == if d.Failure? then Failure(d.error)
                      else if request.body.None? then Failure(SerializationError)
                      else Success(RequestMetadata(request.body.value, latestPublicKeyId, nonce))
    {
      var parsed := lib.fromText(request.uri);
      if parsed.None? {
        return Failure(ParseError);
      }
      var appended := AppendQueryParameter(lib.grammar, parsed.value, "cup2key", KeyAndNonce(latestPublicKeyId, nonce));
      if appended.Failure? {
        return Failure(AppendQueryParameterError(appended.error));
      }
      request.uri := lib.toText(appended.value);
      if request.body.None? {
        return Failure(SerializationError);
      }
      return Success(RequestMetadata(request.body.value, latestPublicKeyId, nonce));
    }

    /** `verify_response_with_signature`. */
    function VerifyWithSignature(
      c: Crypto, der: Bytes, requestBody: Bytes, responseBody: Bytes, id: PublicKeyId, nonce: Nonce):
      Result<(), VerificationError>
    {
      if id !in parametersById then Failure(SpecifiedPublicKeyIdMissing)
      else
        match c.fromDer(der)
        case None => Failure(SignatureError)
        case Some(signature) =>
          var hash := TransactionHash(c, requestBody, responseBody, KeyAndNonce(id, nonce));
          if c.verify(parametersById[id], hash, signature) then Success(()) else Failure(SignatureError)
    }

    /** `verify_response`: the signature in DER form, if all checks pass. */
    function VerifyResponse(c: Crypto, meta: RequestMetadata, response: Response, id: PublicKeyId):
      Result<Bytes, VerificationError>
    {
      match response.etag
      case NoEtag => Failure(EtagHeaderMissing)
      case NotAString => Failure(EtagNotString)
      case Etag(text) =>
        match SplitOnce(ParseEtag(text), ':')
        case None => Failure(EtagMalformed)
        case Some((encodedSignature, hexHash)) =>
          match HexDecode(hexHash)
          case None => Failure(RequestHashMalformed)
          case Some(hash) =>
            if c.sha256(meta.requestBody) != hash then Failure(RequestHashMismatch)
            else
              match HexDecode(encodedSignature)
              case None => Failure(SignatureMalformed)
              case Some(der) =>
                if c.fromDer(der).None? then Failure(SignatureError)
                else
                  match VerifyWithSignature(c, der, meta.requestBody, response.body, id, meta.nonce)
                  case Failure(e) => Failure(e)
                  case Success(_) => Success(der)
    }
  }

  function NewHandler(keys: PublicKeys): Handler {
    Handler(KeyMap(AllKeys(keys)), keys.latest.id)
  }

  /** Taking off quotes, with or without a `W/` before them. */
  function ParseEtag(etag: string): string {
    if |etag| >= 4 && etag[..3] == "W/\"" && etag[|etag| - 1] == '\"' then etag[3..|etag| - 1]
    else if |etag| >= 2 && etag[0] == '\"' && etag[|etag| - 1] == '\"' then etag[1..|etag| - 1]
    else etag
  }

  datatype Quoting = Plain | Quoted | Weak

  function Quote(how: Quoting, text: string): string {
    match how
    case Plain => text
    case Quoted => "\"" + text + "\""
    case Weak => "W/\"" + text + "\""
  }

  /** Whatever text is quoted comes out again; unquoted text does if it does not look quoted, and if it
      is made of digits, small letters and colons it cannot. */
  lemma ParseEtagUnquotes(how: Quoting, text: string)
    requires how.Plain? ==> forall i :: 0 <= i < |text| ==> text[i] != '\"'
    ensures ParseEtag(Quote(how, text)) == text
  {
    var quoted := Quote(how, text);
    match how {
      case Plain =>
      case Quoted =>
        assert quoted[0] == '\"' && quoted[1..|quoted| - 1] == text;
      case Weak =>
        assert quoted[..3] == "W/\"" && quoted[3..|quoted| - 1] == text;
    }
  }

  /** The bytes and the text that a response must carry to be accepted. */
  ghost predicate Authentic(
    h: Handler, c: Crypto, meta: RequestMetadata, response: Response, id: PublicKeyId, der: Bytes)
  {
    && response.etag.Etag?
    && (exists signature: string, hash: string ::
          && ParseEtag(response.etag.text) == signature + ":" + hash && ':' !in signature
          && HexDecode(signature) == Some(der)
          && HexDecode(hash) == Some(c.sha256(meta.requestBody)))
    && c.fromDer(der).Some?
    && id in h.parametersById
    && c.verify(h.parametersById[id],
                c.sha256(c.sha256(meta.requestBody) + c.sha256(response.body)
                         + c.utf8(PrintNat(id) + ":" + HexEncode(meta.nonce))),
                c.fromDer(der).value)
  }

  /** A response is accepted exactly when it carries a signature, made for the key with this id, over the
      hash of this very request, this response, and the key id and nonce sent. */
  lemma AcceptedIffAuthentic(
    h: Handler, c: Crypto, meta: RequestMetadata, response: Response, id: PublicKeyId, der: Bytes)
    ensures h.VerifyResponse(c, meta, response, id) == Success(der) <==> Authentic(h, c, meta, response, id, der)
  {
    hide HexDecode, ParseEtag, PrintNat, HexEncode;
    if response.etag.Etag? {
      var text := ParseEtag(response.etag.text);
      SplitOnceCuts(text, ':');
      forall signature: string, hash: string | text == signature + ":" + hash && ':' !in signature
        ensures SplitOnce(text, ':') == Some((signature, hash))
      {
        SplitOnceFinds(signature, hash, ':');
        assert text == signature + [':'] + hash;
      }
      if SplitOnce(text, ':').Some? {
        var (signature, hash) := SplitOnce(text, ':').value;
        assert text == signature + ":" + hash && ':' !in signature;
      }
    }
  }

  /** Why a response is refused: the first thing that is wrong with it, in this order. */
  lemma RefusedBecause(
    h: Handler, c: Crypto, meta: RequestMetadata, response: Response, id: PublicKeyId, signature: string, hash: string)
    requires response.etag.Etag? ==>
               ':' !in ParseEtag(response.etag.text)
               || (':' !in signature && ParseEtag(response.etag.text) == signature + ":" + hash)
    ensures var r := h.VerifyResponse(c, meta, response, id);
            var message := c.sha256(c.sha256(meta.requestBody) + c.sha256(response.body)
                                    + c.utf8(PrintNat(id) + ":" + HexEncode(meta.nonce)));
            var der := HexDecode(signature);
            if response.etag.NoEtag? then r == Failure(EtagHeaderMissing)
            else if response.etag.NotAString? then r == Failure(EtagNotString)
            else if ':' !in ParseEtag(response.etag.text) then r == Failure(EtagMalformed)
            else if HexDecode(hash).None? then r == Failure(RequestHashMalformed)
            else if HexDecode(hash).value != c.sha256(meta.requestBody) then r == Failure(RequestHashMismatch)
            else if der.None? then r == Failure(SignatureMalformed)
            else if c.fromDer(der.value).None? then r == Failure(SignatureError)
            else if id !in h.parametersById then r == Failure(SpecifiedPublicKeyIdMissing)
            else if !c.verify(h.parametersById[id], message, c.fromDer(der.value).value) then
              r == Failure(SignatureError)
            else r == Success(der.value)
  {
    hide HexDecode, ParseEtag, PrintNat, HexEncode;
    if response.etag.Etag? {
      var text := ParseEtag(response.etag.text);
      SplitOnceCuts(text, ':');
      if ':' in text {
        SplitOnceFinds(signature, hash, ':');
        assert signature + ":" + hash == signature + [':'] + hash;
      }
    }
  }

  // What a signature binds

  lemma ParameterBinds(id: PublicKeyId, nonce: Nonce, other: PublicKeyId, otherNonce: Nonce)
    requires KeyAndNonce(id, nonce) == KeyAndNonce(other, otherNonce)
    ensures id == other && nonce == otherNonce
  {
    hide PrintNat, HexEncode, HexDecode;
    PrintNatDigits(id);
    PrintNatDigits(other);
    SplitOnceFinds(PrintNat(id), HexEncode(nonce), ':');
    SplitOnceFinds(PrintNat(other), HexEncode(otherNonce), ':');
    assert KeyAndNonce(id, nonce) == PrintNat(id) + [':'] + HexEncode(nonce);
    assert KeyAndNonce(other, otherNonce) == PrintNat(other) + [':'] + HexEncode(otherNonce);
    HexRoundTrip(nonce);
    HexRoundTrip(otherNonce);
  }

  /** What the hash over an exchange is taken of. */
  function Preimage(c: Crypto, request: Bytes, response: Bytes, param: string): Bytes {
    c.sha256(request) + c.sha256(response) + c.utf8(param)
  }

  /** The hash over an exchange binds each of its parts: two exchanges with the same hash are the same, or
      else two different messages with the same digest have been found. */
  lemma HashBinds(
    c: Crypto, request: Bytes, response: Bytes, param: string, request': Bytes, response': Bytes, param': string)
    requires c.Sized()
    requires TransactionHash(c, request, response, param) == TransactionHash(c, request', response', param')
    ensures || (request == request' && response == response' && param == param')
            || c.Collide(request, request')
            || c.Collide(response, response')
            || c.Collide(Preimage(c, request, response, param), Preimage(c, request', response', param'))
  {
    var m, m' := Preimage(c, request, response, param), Preimage(c, request', response', param');
    if m == m' {
      assert m[..32] == c.sha256(request) && m'[..32] == c.sha256(request');
      assert m[32..64] == c.sha256(response) && m'[32..64] == c.sha256(response');
      assert m[64..] == c.utf8(param) && m'[64..] == c.utf8(param');
    }
  }

  /** One signature cannot be accepted for two exchanges: if it is, they are the same, in request, response
      and nonce, or two of their messages have the same digest, or the signature verifies for both of their
      different hashes. */
  lemma SignatureBindsExchange(
    h: Handler, c: Crypto, id: PublicKeyId, der: Bytes, meta: RequestMetadata, response: Response,
    meta': RequestMetadata, response': Response)
    requires c.Sized()
    requires h.VerifyResponse(c, meta, response, id) == Success(der)
    requires h.VerifyResponse(c, meta', response', id) == Success(der)
    ensures c.fromDer(der).Some? && id in h.parametersById
    ensures var m := Preimage(c, meta.requestBody, response.body, PrintNat(id) + ":" + HexEncode(meta.nonce));
            var m' := Preimage(c, meta'.requestBody, response'.body, PrintNat(id) + ":" + HexEncode(meta'.nonce));
            var key, signature := h.parametersById[id], c.fromDer(der).value;
            || (meta.requestBody == meta'.requestBody && response.body == response'.body && meta.nonce == meta'.nonce)
            || c.Collide(meta.requestBody, meta'.requestBody)
            || c.Collide(response.body, response'.body)
            || c.Collide(m, m')
            || (c.sha256(m) != c.sha256(m') && c.verify(key, c.sha256(m), signature)
                && c.verify(key, c.sha256(m'), signature))
  {
    hide Handler.VerifyResponse, PrintNat, HexEncode, HexDecode, ParseEtag, TransactionHash;
    AcceptedIffAuthentic(h, c, meta, response, id, der);
    AcceptedIffAuthentic(h, c, meta', response', id, der);
    var param, param' := KeyAndNonce(id, meta.nonce), KeyAndNonce(id, meta'.nonce);
    HashIs(c, meta.requestBody, response.body, param);
    HashIs(c, meta'.requestBody, response'.body, param');
    var m := TransactionHash(c, meta.requestBody, response.body, param);
    var m' := TransactionHash(c, meta'.requestBody, response'.body, param');
    if m == m' {
      HashBinds(c, meta.requestBody, response.body, param, meta'.requestBody, response'.body, param');
      if param == param' {
        ParameterBinds(id, meta.nonce, id, meta'.nonce);
      }
    }
  }

  lemma HashIs(c: Crypto, request: Bytes, response: Bytes, param: string)
    ensures TransactionHash(c, request, response, param)
         == c.sha256(Preimage(c, request, response, param))
  {
  }

  // Keys

  predicate DistinctKeyIds(keys: seq<PublicKeyAndId>) {
    forall i, j :: 0 <= i < j < |keys| ==> keys[i].id != keys[j].id
  }

  /** The map holds, for every id, the last key with it. */
  lemma {:induction false} KeyMapTakesTheLast(keys: seq<PublicKeyAndId>, i: nat)
    requires i < |keys| && forall j :: i < j < |keys| ==> keys[j].id != keys[i].id
    ensures keys[i].id in KeyMap(keys) && KeyMap(keys)[keys[i].id] == keys[i].key
  {
    if i < |keys| - 1 {
      KeyMapTakesTheLast(keys[..|keys| - 1], i);
    }
  }

  lemma {:induction false} KeyMapHasOnlyKeys(keys: seq<PublicKeyAndId>, id: PublicKeyId) returns (i: nat)
    requires id in KeyMap(keys)
    ensures i < |keys| && keys[i].id == id && keys[i].key == KeyMap(keys)[id]
    ensures forall j :: i < j < |keys| ==> keys[j].id != id
  {
    if keys[|keys| - 1].id == id {
      i := |keys| - 1;
    } else {
      i := KeyMapHasOnlyKeys(keys[..|keys| - 1], id);
    }
  }
}
