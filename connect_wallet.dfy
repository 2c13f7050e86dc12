/**
 * The address-format checks of the wallet connection, the dispatch that
 * turns whatever shape of address a wallet returns into a Base58 string,
 * and the platform guard in front of the wallet protocol.
 */
module ConnectWallet {
  import opened Wrappers

  newtype byte = x: int | 0 <= x < 256

  /** The JavaScript values a wallet may hand back as an account address. */
  datatype JsValue =
    | JsUndefined
    | JsNull
    | JsBool(b: bool)
    | JsNumber(n: int)
    | JsString(s: string)
    | JsUint8Array(bytes: seq<byte>)
    | JsArrayBuffer(bytes: seq<byte>)
    | JsArray(items: seq<JsValue>)
    | JsObject(props: map<string, JsValue>)

  /**
   * The library calls the dispatch relies on: `bs58.encode`, the decoding
   * of `Buffer.from(s, "base64")` (None when it throws), and JavaScript's
   * number conversion of any array element that is not a number, boolean,
   * null or undefined.
   */
  datatype AddressCodec = AddressCodec(
    encodeBase58: seq<byte> -> string,
    decodeBase64: string -> Option<seq<byte>>,
    toNumber: JsValue -> int)

  datatype WalletError =
    | UnknownStringFormat
    | UnsupportedAddressType(tag: string)
    | AndroidOnly
    | NoAccounts

  function Message(e: WalletError): string {
    match e
    // Written as two literals: the verifier reads the characters of a long
    // literal only from its end.
    case UnknownStringFormat => "Wallet returned address as an unknown " + "string format (not base58/base64)"
    case UnsupportedAddressType(tag) => "Unsupported address type: " + tag
    case AndroidOnly => "Solana Mobile wallet " + "connect is Android-only (Saga/Seeker)."
    case NoAccounts => "No accounts returned from wallet"
  }

  /** The first character of each error text. */
  function FirstChar(e: WalletError): char {
    match e
    case UnknownStringFormat => 'W'
    case UnsupportedAddressType(_) => 'U'
    case AndroidOnly => 'S'
    case NoAccounts => 'N'
  }

  lemma MessageStartsWith(e: WalletError)
    ensures |Message(e)| > 0 && Message(e)[0] == FirstChar(e)
  {
    match e
    case UnsupportedAddressType(tag) =>
      var prefix := "Unsupported address type: ";
      assert Message(e) == prefix + tag;
      assert (prefix + tag)[0] == prefix[0];
    case UnknownStringFormat =>
    case AndroidOnly =>
    case NoAccounts =>
      assert Message(e)[0] == 'N';
  }

  /** The four error texts tell the errors apart: equal texts mean equal errors. */
  lemma MessagesIdentifyErrors(e1: WalletError, e2: WalletError)
    ensures Message(e1) == Message(e2) <==> e1 == e2
  {
    var prefix := "Unsupported address type: ";
    if Message(e1) == Message(e2) {
      if e1.UnsupportedAddressType? && e2.UnsupportedAddressType? {
        assert e1.tag == Message(e1)[|prefix|..] == Message(e2)[|prefix|..] == e2.tag;
      } else {
        // Texts of different errors already differ in their first character.
        assert Message(e1)[0] == Message(e2)[0];
        MessageStartsWith(e1);
        MessageStartsWith(e2);
      }
    }
  }

  // ----- the two regular expressions -----

  /** A character of `[1-9A-HJ-NP-Za-km-z]`. */
  predicate IsBase58Char(c: char) {
    ('1' <= c <= '9') || ('A' <= c <= 'H') || ('J' <= c <= 'N') || ('P' <= c <= 'Z')
    || ('a' <= c <= 'k') || ('m' <= c <= 'z')
  }

  /** The characters from `lo` to `hi`, in code order. */
  function CharRange(lo: char, hi: char): (r: string)
    requires lo <= hi < 128 as char
    ensures |r| == hi as int - lo as int + 1
    ensures forall i :: 0 <= i < |r| ==> r[i] as int == lo as int + i
  {
    seq(hi as int - lo as int + 1, i requires 0 <= i <= hi as int - lo as int => (lo as int + i) as char)
  }

  /** The Bitcoin Base58 alphabet, in digit order. */
  function Base58Alphabet(): string {
    CharRange('1', '9') + CharRange('A', 'H') + CharRange('J', 'N') + CharRange('P', 'Z')
    + CharRange('a', 'k') + CharRange('m', 'z')
  }

  /** `/^[1-9A-HJ-NP-Za-km-z]+$/`. */
  predicate IsLikelyBase58(s: string) {
    |s| > 0 && forall i :: 0 <= i < |s| ==> IsBase58Char(s[i])
  }

  /** A character of `[A-Za-z0-9+/]`. */
  predicate IsBase64Char(c: char) {
    ('A' <= c <= 'Z') || ('a' <= c <= 'z') || ('0' <= c <= '9') || c == '+' || c == '/'
  }

  /** The number of '=' characters at the end of `s`. */
  function TrailingPads(s: string): (n: nat)
    ensures n <= |s|
    ensures forall i :: |s| - n <= i < |s| ==> s[i] == '='
    ensures n < |s| ==> s[|s| - n - 1] != '='
  {
    if s == [] || s[|s| - 1] != '=' then 0 else TrailingPads(s[..|s| - 1]) + 1
  }

  /** `/^[A-Za-z0-9+/]+={0,2}$/.test(s) && s.length % 4 === 0`. */
  predicate IsLikelyBase64(s: string) {
    var pads := TrailingPads(s);
    && pads <= 2
    && |s| - pads >= 1
    && (forall i :: 0 <= i < |s| - pads ==> IsBase64Char(s[i]))
    && |s| % 4 == 0
  }

  /** The regular expression read literally: a non-empty body, then at most two pads. */
  ghost predicate Base64Shape(s: string) {
    exists k :: Base64Split(s, k)
  }

  /** `s[..k]` matches `[A-Za-z0-9+/]+` and `s[k..]` matches `={0,2}`. */
  predicate Base64Split(s: string, k: int) {
    && 1 <= k <= |s| && |s| - k <= 2
    && (forall i :: 0 <= i < k ==> IsBase64Char(s[i]))
    && (forall i :: k <= i < |s| ==> s[i] == '=')
  }

  /** The alphabet lists exactly the characters of the character class. */
  lemma Base58CharInAlphabet(c: char)
    ensures IsBase58Char(c) <==> c in Base58Alphabet()
  {
    var a := Base58Alphabet();
    if IsBase58Char(c) {
      var i :=
        if c <= '9' then c as int - '1' as int
        else if c <= 'H' then 9 + c as int - 'A' as int
        else if c <= 'N' then 17 + c as int - 'J' as int
        else if c <= 'Z' then 22 + c as int - 'P' as int
        else if c <= 'k' then 33 + c as int - 'a' as int
        else 44 + c as int - 'm' as int;
      assert a[i] == c;
    }
    if c in a {
      var i :| 0 <= i < |a| && a[i] == c;
      assert IsBase58Char(a[i]);
    }
  }

  /** An ASCII letter or digit. */
  predicate IsAsciiAlphanumeric(c: char) {
    ('0' <= c <= '9') || ('A' <= c <= 'Z') || ('a' <= c <= 'z')
  }

  /** The class is the ASCII letters and digits without the look-alikes '0', 'O', 'I' and 'l'. */
  lemma Base58CharIsAlphanumericButLookalikes(c: char)
    ensures IsBase58Char(c) <==> IsAsciiAlphanumeric(c) && c != '0' && c != 'O' && c != 'I' && c != 'l'
  {
  }

  /** `isLikelyBase58` holds exactly of the non-empty strings over the Base58 alphabet. */
  lemma IsLikelyBase58Alphabet(s: string)
    ensures IsLikelyBase58(s) <==> |s| > 0 && forall i :: 0 <= i < |s| ==> s[i] in Base58Alphabet()
  {
    forall i | 0 <= i < |s| ensures IsBase58Char(s[i]) <==> s[i] in Base58Alphabet() {
      Base58CharInAlphabet(s[i]);
    }
  }

  lemma Base58RejectsLookalikes()
    ensures |Base58Alphabet()| == 58
    ensures forall i, j :: 0 <= i < j < |Base58Alphabet()| ==> Base58Alphabet()[i] < Base58Alphabet()[j]
    ensures '0' !in Base58Alphabet() && 'O' !in Base58Alphabet()
    ensures 'I' !in Base58Alphabet() && 'l' !in Base58Alphabet()
  {
    Base58CharInAlphabet('0');
    Base58CharInAlphabet('O');
    Base58CharInAlphabet('I');
    Base58CharInAlphabet('l');
  }

  /** '=' is no Base64 body character, so the pads begin where the body ends. */
  lemma {:induction false} PadsFollowBody(s: string, k: int)
    requires Base64Split(s, k)
    ensures TrailingPads(s) == |s| - k
    decreases |s|
  {
    if k < |s| {
      assert Base64Split(s[..|s| - 1], k);
      PadsFollowBody(s[..|s| - 1], k);
    }
  }

  /** `isLikelyBase64` is the regular expression plus the length test. */
  lemma IsLikelyBase64Shape(s: string)
    ensures IsLikelyBase64(s) <==> Base64Shape(s) && |s| % 4 == 0
  {
    var pads := TrailingPads(s);
    if IsLikelyBase64(s) {
      assert Base64Split(s, |s| - pads);
    }
    if Base64Shape(s) && |s| % 4 == 0 {
      var k :| Base64Split(s, k);
      PadsFollowBody(s, k);
    }
  }

  /** The Base58 alphabet lies inside the Base64 one. */
  lemma Base58IsBase64(s: string)
    requires IsLikelyBase58(s) && |s| % 4 == 0
    ensures IsLikelyBase64(s)
  {
    assert s[|s| - 1] != '=';
  }

  // ----- toPubkeyBase58 -----

  /** `Object.prototype.toString.call(v)`: `[object T]` for the value's kind `T`. */
  function ObjectTag(v: JsValue): (r: string)
    ensures |r| > 9 && r[..8] == "[object " && r[|r| - 1] == ']'
  {
    match v
    case JsUndefined => "[object Undefined]"
    case JsNull => "[object Null]"
    case JsBool(_) => "[object Boolean]"
    case JsNumber(_) => "[object Number]"
    case JsString(_) => "[object String]"
    case JsUint8Array(_) => "[object Uint8Array]"
    case JsArrayBuffer(_) => "[object ArrayBuffer]"
    case JsArray(_) => "[object Array]"
    case JsObject(_) => "[object Object]"
  }

  predicate AllNumbers(items: seq<JsValue>) {
    forall i :: 0 <= i < |items| ==> items[i].JsNumber?
  }

  /** The element conversion of `Uint8Array.from`: to a number, then modulo 256. */
  function ToUint8(v: JsValue, codec: AddressCodec): byte {
    var n := match v
      case JsNumber(n) => n
      case JsBool(b) => if b then 1 else 0
      case JsNull => 0
      case JsUndefined => 0
      case _ => codec.toNumber(v);
    (n % 256) as byte
  }

  /**
   * `Uint8Array.from` wraps numbers modulo 256, so a byte value passes
   * unchanged, 256 apart is the same byte and -1 becomes 255; `true` is 1,
   * `false`, null and undefined are 0.
   */
  lemma ToUint8Wraps(n: int, codec: AddressCodec)
    ensures ToUint8(JsNumber(n), codec) as int == n % 256
    ensures 0 <= n < 256 ==> ToUint8(JsNumber(n), codec) as int == n
    ensures ToUint8(JsNumber(n + 256), codec) == ToUint8(JsNumber(n), codec)
    ensures ToUint8(JsNumber(-1), codec) == 255
    ensures ToUint8(JsBool(true), codec) == 1 && ToUint8(JsBool(false), codec) == 0
    ensures ToUint8(JsNull, codec) == 0 && ToUint8(JsUndefined, codec) == 0
  {
  }

  /** `Uint8Array.from(items)`. */
  function ToBytes(items: seq<JsValue>, codec: AddressCodec): (r: seq<byte>)
    ensures |r| == |items|
    ensures forall i :: 0 <= i < |items| ==> r[i] == ToUint8(items[i], codec)
  {
    if items == [] then [] else [ToUint8(items[0], codec)] + ToBytes(items[1..], codec)
  }

  /** `toPubkeyBase58`: the shapes are tried in the order the source tries them. */
  function ToPubkeyBase58(addr: JsValue, codec: AddressCodec): Result<string, WalletError> {
    match addr
    case JsUint8Array(bytes) => Ok(codec.encodeBase58(bytes))
    case JsArrayBuffer(bytes) => Ok(codec.encodeBase58(bytes))
    case JsArray(items) =>
      if AllNumbers(items) then Ok(codec.encodeBase58(ToBytes(items, codec)))
      else Err(UnsupportedAddressType(ObjectTag(addr)))
    case JsObject(props) =>
      if "data" in props && props["data"].JsArray? then
        Ok(codec.encodeBase58(ToBytes(props["data"].items, codec)))
      else Err(UnsupportedAddressType(ObjectTag(addr)))
    case JsString(s) =>
      if IsLikelyBase58(s) then Ok(s)
      else if codec.decodeBase64(s).Some? then Ok(codec.encodeBase58(codec.decodeBase64(s).value))
      else Err(UnknownStringFormat)
    case _ => Err(UnsupportedAddressType(ObjectTag(addr)))
  }

  /** A string that already looks like Base58 is returned unchanged. */
  lemma Base58StringUnchanged(s: string, codec: AddressCodec)
    requires IsLikelyBase58(s)
    ensures ToPubkeyBase58(JsString(s), codec) == Ok(s)
  {
  }

  /** Any other string goes through the Base64 decoder. */
  lemma OtherStringDecoded(s: string, codec: AddressCodec)
    requires !IsLikelyBase58(s)
    ensures codec.decodeBase64(s).Some? ==>
      ToPubkeyBase58(JsString(s), codec) == Ok(codec.encodeBase58(codec.decodeBase64(s).value))
    ensures codec.decodeBase64(s).None? ==> ToPubkeyBase58(JsString(s), codec) == Err(UnknownStringFormat)
  {
  }

  /**
   * Every byte shape is encoded; an array of numbers goes byte by byte, modulo 256.
   * An object with an array `data` property (a Node `Buffer` serialised as
   * `{ type: "Buffer", data }`, or any other) is encoded from that array,
   * whatever its elements and its other properties.
   */
  lemma ByteShapesEncoded(bytes: seq<byte>, nums: seq<int>, codec: AddressCodec)
    ensures ToPubkeyBase58(JsUint8Array(bytes), codec) == Ok(codec.encodeBase58(bytes))
    ensures ToPubkeyBase58(JsArrayBuffer(bytes), codec) == Ok(codec.encodeBase58(bytes))
    ensures var items := seq(|nums|, i requires 0 <= i < |nums| => JsNumber(nums[i]));
            var expected := seq(|nums|, i requires 0 <= i < |nums| => (nums[i] % 256) as byte);
            && ToPubkeyBase58(JsArray(items), codec) == Ok(codec.encodeBase58(expected))
            && ToPubkeyBase58(JsObject(map["data" := JsArray(items)]), codec)
               == Ok(codec.encodeBase58(expected))
    ensures ToPubkeyBase58(JsArray([]), codec) == Ok(codec.encodeBase58([]))
    ensures forall props: map<string, JsValue> :: "data" in props && props["data"].JsArray? ==>
              ToPubkeyBase58(JsObject(props), codec) == Ok(codec.encodeBase58(ToBytes(props["data"].items, codec)))
    ensures var items := seq(|nums|, i requires 0 <= i < |nums| => JsNumber(nums[i]));
            var expected := seq(|nums|, i requires 0 <= i < |nums| => (nums[i] % 256) as byte);
            ToPubkeyBase58(JsObject(map["type" := JsString("Buffer"), "data" := JsArray(items)]), codec)
            == Ok(codec.encodeBase58(expected))
  {
    var items := seq(|nums|, i requires 0 <= i < |nums| => JsNumber(nums[i]));
    var expected := seq(|nums|, i requires 0 <= i < |nums| => (nums[i] % 256) as byte);
    assert ToBytes(items, codec) == expected;
  }

  /** A value of no supported shape is refused with its `[object …]` tag. */
  lemma UnsupportedShapes(v: JsValue, codec: AddressCodec)
    requires v.JsUndefined? || v.JsNull? || v.JsBool? || v.JsNumber?
             || (v.JsArray? && !AllNumbers(v.items))
             || (v.JsObject? && !("data" in v.props && v.props["data"].JsArray?))
    ensures ToPubkeyBase58(v, codec) == Err(UnsupportedAddressType(ObjectTag(v)))
    ensures Message(ToPubkeyBase58(v, codec).error) == "Unsupported address type: " + ObjectTag(v)
  {
  }

  /** What `toPubkeyBase58` returns on success is a Base58 string or the encoder's output. */
  lemma ToPubkeyBase58Result(addr: JsValue, codec: AddressCodec)
    ensures var r := ToPubkeyBase58(addr, codec);
            r.Ok? ==> (addr.JsString? && r.value == addr.s && IsLikelyBase58(addr.s))
                      || exists bytes :: r.value == codec.encodeBase58(bytes)
    ensures ToPubkeyBase58(addr, codec).Err? ==>
              (addr.JsString? && ToPubkeyBase58(addr, codec).error == UnknownStringFormat)
              || ToPubkeyBase58(addr, codec).error == UnsupportedAddressType(ObjectTag(addr))
  {
    match addr
    case JsUint8Array(bytes) =>
    case JsArrayBuffer(bytes) =>
    case JsArray(items) =>
      if AllNumbers(items) {
        var r := ToPubkeyBase58(addr, codec);
        assert r.value == codec.encodeBase58(ToBytes(items, codec));
      }
    case JsObject(props) =>
      if "data" in props && props["data"].JsArray? {
        var r := ToPubkeyBase58(addr, codec);
        assert r.value == codec.encodeBase58(ToBytes(props["data"].items, codec));
      }
    case JsString(s) =>
      if !IsLikelyBase58(s) && codec.decodeBase64(s).Some? {
        var r := ToPubkeyBase58(addr, codec);
        assert r.value == codec.encodeBase58(codec.decodeBase64(s).value);
      }
    case _ =>
  }

  // ----- connectWallet -----

  /**
   * `connectWallet`, with the wallet session abstracted to the list of
   * account addresses its authorization returned (None for a missing list).
   */
  function Connect(platformOs: string, accounts: Option<seq<JsValue>>, codec: AddressCodec)
    : (r: Result<string, WalletError>)
    ensures platformOs != "android" ==> r == Err(AndroidOnly)
    ensures platformOs == "android" && (accounts.None? || accounts.value == []) ==> r == Err(NoAccounts)
    ensures platformOs == "android" && accounts.Some? && accounts.value != [] ==>
              r == ToPubkeyBase58(accounts.value[0], codec)
  {
    if platformOs != "android" then Err(AndroidOnly)
    else if accounts.None? || accounts.value == [] then Err(NoAccounts)
    else ToPubkeyBase58(accounts.value[0], codec)
  }
}
