/** The four tabs of the request section and their numeric values. */
module RequestTab {
  import opened Ints

  datatype RequestTabs = UrlParams | Authorization | Headers | Body

  /** `RequestTabs::default()`. */
  const Default := UrlParams

  /** The tab's title. */
  function GetStrLabel(t: RequestTabs): seq<char>
  {
    match t
    case UrlParams => "URL Params"
    case Authorization => "Authorization"
    case Headers => "Headers"
    case Body => "Body"
  }

  /** `t as u8`: the discriminant. */
  function GetVal(t: RequestTabs): (r: U8)
    ensures r <= 3
  {
    match t
    case UrlParams => 0
    case Authorization => 1
    case Headers => 2
    case Body => 3
  }

  /** The tab with value `v`; any value past 3 gives the first tab. */
  function FromVal(v: U8): (r: RequestTabs)
    ensures v <= 3 ==> GetVal(r) == v
    ensures v > 3 ==> r == UrlParams
  {
    match v
    case 0 => UrlParams
    case 1 => Authorization
    case 2 => Headers
    case 3 => Body
    case _ => UrlParams
  }

  /** The tabs in value order. */
  function Iter(): (r: seq<RequestTabs>)
    ensures |r| == 4
    ensures forall i :: 0 <= i < |r| ==> GetVal(r[i]) == i
  {
    [UrlParams, Authorization, Headers, Body]
  }

  /** Every tab is recovered from its value. */
  lemma FromValGetVal(t: RequestTabs)
    ensures FromVal(GetVal(t)) == t
  {
  }

  /** Each tab appears once in `Iter`. */
  lemma IterListsEveryTabOnce(t: RequestTabs)
    ensures exists i :: 0 <= i < |Iter()| && Iter()[i] == t
    ensures forall i, j :: 0 <= i < j < |Iter()| ==> Iter()[i] != Iter()[j]
  {
    assert Iter()[GetVal(t)] == t;
  }

  /** The four titles are different. */
  lemma LabelsDistinct(s: RequestTabs, t: RequestTabs)
    requires s != t
    ensures GetStrLabel(s) != GetStrLabel(t)
  {
    assert GetStrLabel(Headers)[0] == 'H';
    assert GetStrLabel(UrlParams)[0] == 'U';
    assert GetStrLabel(Body)[0] == 'B';
    assert GetStrLabel(Authorization)[0] == 'A';
  }
}
