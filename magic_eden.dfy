/**
 * The marketplace client: the three request builders of the Magic Eden API
 * client, and the collection lookup that tries three endpoints in order. An
 * HTTP call is not performed here: a builder returns the request it would
 * send, and the lookup is given the outcome of each GET.
 */
module MagicEden {
  import opened Wrappers
  import opened JsText
  import opened JsonValue

  const ApiBaseUrl := "https://api-mainnet.magiceden.io"
  const MintTokenPath := "/v4/self_serve/nft/mint_token"

  datatype WalletRef = WalletRef(address: string, chain: string)

  /** The JSON body of a mint-quote request. */
  datatype MintPayload = MintPayload(
    chain: string,
    collectionId: string,
    kind: string,
    nftAmount: int,
    protocol: string,
    tokenId: int,
    wallet: WalletRef,
    address: string)

  datatype Request =
    | Post(url: string, payload: MintPayload)
    | Get(url: string)

  /** A quote body as the marketplace expects it: a public ERC-1155 mint whose two wallet and two chain fields agree. */
  predicate IsPublicErc1155Quote(p: MintPayload) {
    p.kind == "public" && p.protocol == "ERC1155" && p.wallet.address == p.address && p.wallet.chain == p.chain
  }

  /** The arguments a quote body was built from: contract, wallet, chain, amount and token id. */
  function QuoteArgs(p: MintPayload): (string, string, string, int, int) {
    (p.collectionId, p.address, p.chain, p.nftAmount, p.tokenId)
  }

  /** `quoteMintData`: the POST that asks for a mint quote. */
  function QuoteMintData(nftContract: string, wallet: string, chain: string := "", nftAmount: int := 1, tokenId: int := 0): (r: Request)
    ensures r.Post? && r.url == ApiBaseUrl + MintTokenPath
    ensures IsPublicErc1155Quote(r.payload)
    ensures QuoteArgs(r.payload) == (nftContract, wallet, chain, nftAmount, tokenId)
  {
    Post(ApiBaseUrl + MintTokenPath,
         MintPayload(chain, nftContract, "public", nftAmount, "ERC1155", tokenId, WalletRef(wallet, chain), wallet))
  }

  /** Omitted arguments: no chain, one NFT, token 0. */
  lemma QuoteDefaults(nftContract: string, wallet: string)
    ensures QuoteArgs(QuoteMintData(nftContract, wallet).payload) == (nftContract, wallet, "", 1, 0)
  {
  }

  /** Distinct arguments give distinct requests: the body determines what was asked for. */
  lemma QuoteInjective(c1: string, w1: string, ch1: string, n1: int, t1: int, c2: string, w2: string, ch2: string, n2: int, t2: int)
    requires QuoteMintData(c1, w1, ch1, n1, t1) == QuoteMintData(c2, w2, ch2, n2, t2)
    ensures (c1, w1, ch1, n1, t1) == (c2, w2, ch2, n2, t2)
  {
    assert QuoteArgs(QuoteMintData(c1, w1, ch1, n1, t1).payload) == QuoteArgs(QuoteMintData(c2, w2, ch2, n2, t2).payload);
  }

  // ---------------------------------------------------------------------------
  // Trending mints

  /** The pieces of the trending-mints URL around its three parameters. */
  const TrendingHead := ApiBaseUrl + "/v3/rtp/"
  const TrendingPath := "collections/trending-mints/v1?period="
  const TrendingType := "type=any&limit="
  const TrendingTail := "useNonFlaggedFloorAsk=true"

  /** The URL `getAvailableMints` requests; the arguments are pasted in unescaped. */
  function AvailableMintsUrl(chain: string := "", period: string := "1h", limit: int := 200): string {
    TrendingHead + chain + "/" + TrendingPath + period + "&" + TrendingType + IntToString(limit) + "&" + TrendingTail
  }

  /** `getAvailableMints`: a GET of the trending-mints URL. */
  function GetAvailableMints(chain: string := "", period: string := "1h", limit: int := 200): (r: Request)
    ensures r.Get?
    ensures '/' !in chain && '&' !in period ==> ParseTrendingMintsUrl(r.url) == Some((chain, period, limit))
    ensures forall u :: ParseTrendingMintsUrl(u) == Some((chain, period, limit)) ==> u == r.url
  {
    var url := AvailableMintsUrl(chain, period, limit);
    assert '/' !in chain && '&' !in period ==> ParseTrendingMintsUrl(url) == Some((chain, period, limit)) by {
      if '/' !in chain && '&' !in period { TrendingUrlRoundTrip(chain, period, limit); }
    }
    assert forall u :: ParseTrendingMintsUrl(u) == Some((chain, period, limit)) ==> u == url by {
      forall u | ParseTrendingMintsUrl(u) == Some((chain, period, limit)) ensures u == url {
        TrendingUrlExact(u, chain, period, limit);
      }
    }
    Get(url)
  }

  /** Omitted arguments: no chain (an empty path segment), period one hour, limit 200. */
  lemma TrendingDefaults()
    ensures ParseTrendingMintsUrl(GetAvailableMints().url) == Some(("", "1h", 200))
  {
  }

  /** The text before and after the first occurrence of `d`; `None` when `d` does not occur. */
  function Cut(s: string, d: char): (r: Option<(string, string)>)
    ensures r.Some? ==> s == r.value.0 + [d] + r.value.1 && d !in r.value.0
    ensures r.None? ==> d !in s
  {
    if s == [] then None
    else if s[0] == d then Some(([], s[1..]))
    else
      match Cut(s[1..], d)
      case None => None
      case Some((before, after)) => Some(([s[0]] + before, after))
  }

  lemma {:induction false} CutAt(a: string, d: char, b: string)
    requires d !in a
    ensures Cut(a + [d] + b, d) == Some((a, b))
  {
    if a != [] {
      assert (a + [d] + b)[1..] == a[1..] + [d] + b;
      CutAt(a[1..], d, b);
      assert [a[0]] + a[1..] == a;
    } else {
      assert a + [d] + b == [d] + b;
    }
  }

  /**
   * Reads a trending-mints URL back into its chain, period and limit: the
   * inverse of `AvailableMintsUrl`, used to state what that URL carries.
   */
  function ParseTrendingMintsUrl(url: string): Option<(string, string, int)> {
    if !(TrendingHead <= url) then None
    else match Cut(url[|TrendingHead|..], '/')
      case None => None
      case Some((chain, rest)) =>
        if !(TrendingPath <= rest) then None
        else match ParsePeriodAndLimit(rest[|TrendingPath|..])
          case None => None
          case Some((period, limit)) => Some((chain, period, limit))
  }

  function ParsePeriodAndLimit(s: string): Option<(string, int)> {
    match Cut(s, '&')
    case None => None
    case Some((period, rest)) =>
      if !(TrendingType <= rest) then None
      else match ParseLimit(rest[|TrendingType|..])
        case None => None
        case Some(limit) => Some((period, limit))
  }

  /** The limit and the fixed tail; the limit text must be exactly the rendering of its value. */
  function ParseLimit(s: string): Option<int> {
    match Cut(s, '&')
    case None => None
    case Some((limitText, tail)) =>
      match ParseInt(limitText)
      case None => None
      case Some(limit) => if limitText == IntToString(limit) && tail == TrendingTail then Some(limit) else None
  }

  lemma LimitRoundTrip(limit: int)
    ensures ParseLimit(IntToString(limit) + ['&'] + TrendingTail) == Some(limit)
  {
    assert '&' !in IntToString(limit);
    CutAt(IntToString(limit), '&', TrendingTail);
    ParseIntRoundTrip(limit);
  }

  lemma LimitExact(s: string, limit: int)
    requires ParseLimit(s) == Some(limit)
    ensures s == IntToString(limit) + ['&'] + TrendingTail
  {
  }

  lemma PeriodAndLimitRoundTrip(period: string, limit: int)
    requires '&' !in period
    ensures ParsePeriodAndLimit(period + ['&'] + (TrendingType + (IntToString(limit) + ['&'] + TrendingTail))) == Some((period, limit))
  {
    var r := TrendingType + (IntToString(limit) + ['&'] + TrendingTail);
    CutAt(period, '&', r);
    assert r[|TrendingType|..] == IntToString(limit) + ['&'] + TrendingTail;
    LimitRoundTrip(limit);
  }

  lemma Regroup(h: string, c: string, p: string, e: string, t: string, l: string, tail: string)
    ensures h + c + "/" + p + e + "&" + t + l + "&" + tail == h + (c + ['/'] + (p + (e + ['&'] + (t + (l + ['&'] + tail)))))
  {
  }

  /** The chain, period and limit can be read back from the URL, provided they contain no separator. */
  lemma TrendingUrlRoundTrip(chain: string, period: string, limit: int)
    requires '/' !in chain && '&' !in period
    ensures ParseTrendingMintsUrl(AvailableMintsUrl(chain, period, limit)) == Some((chain, period, limit))
  {
    var r3 := TrendingType + (IntToString(limit) + ['&'] + TrendingTail);
    var r2 := TrendingPath + (period + ['&'] + r3);
    var r1 := chain + ['/'] + r2;
    var url := AvailableMintsUrl(chain, period, limit);
    Regroup(TrendingHead, chain, TrendingPath, period, TrendingType, IntToString(limit), TrendingTail);
    assert url[|TrendingHead|..] == r1;
    CutAt(chain, '/', r2);
    assert r2[|TrendingPath|..] == period + ['&'] + r3;
    PeriodAndLimitRoundTrip(period, limit);
  }

  lemma PeriodAndLimitExact(s: string, period: string, limit: int)
    requires ParsePeriodAndLimit(s) == Some((period, limit))
    ensures '&' !in period
    ensures s == period + ['&'] + (TrendingType + (IntToString(limit) + ['&'] + TrendingTail))
  {
    var (p, rest) := Cut(s, '&').value;
    assert rest == TrendingType + rest[|TrendingType|..];
    LimitExact(rest[|TrendingType|..], limit);
  }

  /** Only the URL built from the chain, period and limit reads back as them: the parser accepts nothing else. */
  lemma TrendingUrlExact(url: string, chain: string, period: string, limit: int)
    requires ParseTrendingMintsUrl(url) == Some((chain, period, limit))
    ensures '/' !in chain && '&' !in period
    ensures url == AvailableMintsUrl(chain, period, limit)
  {
    var (c, rest) := Cut(url[|TrendingHead|..], '/').value;
    assert url == TrendingHead + url[|TrendingHead|..];
    assert rest == TrendingPath + rest[|TrendingPath|..];
    PeriodAndLimitExact(rest[|TrendingPath|..], period, limit);
    Regroup(TrendingHead, chain, TrendingPath, period, TrendingType, IntToString(limit), TrendingTail);
  }

  // ---------------------------------------------------------------------------
  // Collection lookup

  /** The three endpoints `getCollectionInfo` tries, in order. */
  function CollectionEndpoints(contractAddress: string, chain: string): seq<string> {
    [ ApiBaseUrl + "/v2/collections/" + contractAddress,
      ApiBaseUrl + "/v3/rtp/" + chain + "/collections/" + contractAddress + "/v1",
      ApiBaseUrl + "/v4/collections/" + contractAddress ]
  }

  /** The endpoints are three different URLs, told apart by their API version. */
  lemma EndpointsDistinct(contractAddress: string, chain: string)
    ensures |CollectionEndpoints(contractAddress, chain)| == 3
    ensures forall i, j :: 0 <= i < j < 3 ==> CollectionEndpoints(contractAddress, chain)[i] != CollectionEndpoints(contractAddress, chain)[j]
  {
    var e := CollectionEndpoints(contractAddress, chain);
    var k := |ApiBaseUrl| + 2;
    assert e[0][k] == '2' && e[1][k] == '3' && e[2][k] == '4';
  }

  /** A reply the lookup accepts: a truthy body with a truthy `name` or `collection.name`. */
  predicate Qualifies(reply: Option<Json>) {
    Truthy(reply) && (Truthy(Prop(reply, "name")) || Truthy(Prop(Prop(reply, "collection"), "name")))
  }

  lemma QualifiesIsObject(reply: Option<Json>)
    requires Qualifies(reply)
    ensures reply.Some? && reply.value.JObj?
  {
  }

  const CollectionFields: set<string> := {"name", "description", "image"}

  /**
   * The record returned for an accepted reply: `name`, `description` and
   * `image` from the top level or else from `collection`, then every field of
   * the reply itself spread over them.
   */
  function Merge(fields: map<string, Json>): (r: map<string, Option<Json>>)
    ensures r.Keys == fields.Keys + CollectionFields
    ensures forall k :: k in fields ==> r[k] == Some(fields[k])
    ensures forall f :: f in CollectionFields && f !in fields ==> r[f] == Prop(Prop(Some(JObj(fields)), "collection"), f)
  {
    var reply := Some(JObj(fields));
    var computed := map[
      "name" := Or(Prop(reply, "name"), Prop(Prop(reply, "collection"), "name")),
      "description" := Or(Prop(reply, "description"), Prop(Prop(reply, "collection"), "description")),
      "image" := Or(Prop(reply, "image"), Prop(Prop(reply, "collection"), "image"))];
    computed + map k | k in fields :: Some(fields[k])
  }

  /** The merged name is truthy unless the reply carries a falsy `name` of its own. */
  lemma MergedNameTruthy(fields: map<string, Json>)
    requires Qualifies(Some(JObj(fields)))
    requires "name" in fields ==> Truthy(Some(fields["name"]))
    ensures Truthy(Merge(fields)["name"])
  {
  }

  /** A falsy top-level `name` is accepted via `collection.name` but then overrides it: the spread comes last. */
  lemma SpreadOverridesFallback()
    ensures var fields := map["name" := JStr(""), "collection" := JObj(map["name" := JStr("Apes")])];
            Qualifies(Some(JObj(fields))) && Merge(fields)["name"] == Some(JStr(""))
  {
  }

  /**
   * `getCollectionInfo`: GET each endpoint in order (`get` gives the parsed
   * body, or `None` when the request throws), skip failures and replies
   * without a name, and return the merge of the first reply that has one.
   * `queried` lists the endpoints requested, in order.
   */
  method GetCollectionInfo(get: string -> Option<Json>, contractAddress: string, chain: string := "")
    returns (info: Option<map<string, Option<Json>>>, queried: seq<string>)
    ensures var endpoints := CollectionEndpoints(contractAddress, chain);
      && 1 <= |queried| <= |endpoints| && queried == endpoints[..|queried|]
      && (forall j :: 0 <= j < |queried| - 1 ==> !Qualifies(get(endpoints[j])))
      && (info.Some? <==> Qualifies(get(queried[|queried| - 1])))
      && (info.None? <==> forall j :: 0 <= j < |endpoints| ==> !Qualifies(get(endpoints[j])))
      && (info.None? ==> queried == endpoints)
    ensures info.Some? ==> var reply := get(queried[|queried| - 1]);
      reply.Some? && reply.value.JObj? && info.value == Merge(reply.value.fields)
  {
    var endpoints := CollectionEndpoints(contractAddress, chain);
    queried := [];
    for i := 0 to |endpoints|
      invariant queried == endpoints[..i]
      invariant forall j :: 0 <= j < i ==> !Qualifies(get(endpoints[j]))
    {
      queried := queried + [endpoints[i]];
      var result := get(endpoints[i]);
      if Qualifies(result) {
        QualifiesIsObject(result);
        return Some(Merge(result.value.fields)), queried;
      }
    }
    info := None;
  }
}
