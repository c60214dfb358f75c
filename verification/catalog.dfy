/** The static card catalog and the first-match lookup `getCardById`. */
module CardCatalog {
  import opened Wrappers

  /** A catalog entry; `video` is None for an image-only card. */
  datatype Card = Card(id: string, name: string, image: string, video: Option<string>)

  /** JavaScript truthiness of `card.video`: null and the empty string are both falsy. */
  predicate HasVideo(card: Card) {
    card.video.Some? && card.video.value != ""
  }

  /** The fixed, ordered catalog. Only the first card has a video. */
  const Cards: seq<Card> := [
    Card("bedrieglijk", "Bedrieglijk", "bedrieglijk.png", Some("bedrieglijk.m4v")),
    Card("beschermend", "Beschermend", "beschermend.png", None),
    Card("creatief", "Creatief", "creatief.png", None),
    Card("dapper", "Dapper", "dapper.png", None),
    Card("doorzetter", "Doorzetter", "doorzetter.png", None),
    Card("sinister", "Sinister", "sinister.png", None),
    Card("vreugdevol", "Vreugdevol", "vreugdevol.png", None),
    Card("wreed", "Wreed", "wreed.png", None)
  ]

  /** No two entries of `catalog` share an id. */
  ghost predicate DistinctIds(catalog: seq<Card>) {
    forall i, j :: 0 <= i < j < |catalog| ==> catalog[i].id != catalog[j].id
  }

  /** The position of the first entry whose id is `id`, or |catalog| when there is none. */
  function FirstIndexOf(catalog: seq<Card>, id: string): (i: nat)
    ensures i <= |catalog|
    ensures forall j :: 0 <= j < i ==> catalog[j].id != id
    ensures i < |catalog| ==> catalog[i].id == id
  {
    if |catalog| == 0 then 0
    else if catalog[0].id == id then 0
    else 1 + FirstIndexOf(catalog[1..], id)
  }

  /** `Array.prototype.find` with the predicate `card.id === id`. */
  function Find(catalog: seq<Card>, id: string): (r: Option<Card>)
    ensures r.Some? ==> r.value in catalog && r.value.id == id
    ensures r.None? <==> forall c :: c in catalog ==> c.id != id
    ensures r.Some? ==> exists i :: 0 <= i < |catalog| && catalog[i] == r.value
                                    && forall j :: 0 <= j < i ==> catalog[j].id != id
  {
    var i := FirstIndexOf(catalog, id);
    if i < |catalog| then Some(catalog[i]) else None
  }

  /** In a catalog with distinct ids, looking up an entry's id yields that entry. */
  lemma FindDistinct(catalog: seq<Card>, k: nat)
    requires DistinctIds(catalog)
    requires k < |catalog|
    ensures Find(catalog, catalog[k].id) == Some(catalog[k])
  {
  }

  function GetCardById(id: string): (r: Option<Card>)
    ensures r.Some? ==> r.value in Cards && r.value.id == id
    ensures r.None? <==> forall c :: c in Cards ==> c.id != id
  {
    Find(Cards, id)
  }

  lemma CatalogIdsDistinct()
    ensures DistinctIds(Cards)
  {
  }

  /** Every catalog card is found by its own id. */
  lemma GetCardByIdFindsEachCard(k: nat)
    requires k < |Cards|
    ensures GetCardById(Cards[k].id) == Some(Cards[k])
  {
    CatalogIdsDistinct();
    FindDistinct(Cards, k);
  }

  /** Only "bedrieglijk" carries a video; "dapper" is image-only. */
  lemma CatalogVideos()
    ensures GetCardById("bedrieglijk").Some? && HasVideo(GetCardById("bedrieglijk").value)
    ensures GetCardById("dapper").Some? && !HasVideo(GetCardById("dapper").value)
  {
  }

  /** Every card after the first is image-only. */
  lemma OnlyFirstCardHasVideo()
    ensures forall k :: 1 <= k < |Cards| ==> !HasVideo(Cards[k])
  {
  }

  /** The empty id, which the selection logic treats as "no card", names no catalog card. */
  lemma EmptyIdNotInCatalog()
    ensures GetCardById("").None?
  {
  }
}
