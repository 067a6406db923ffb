/**
 * DomainToUiModel.kt: the mapper interface whose default `mapToUIList` maps
 * every element of a domain list with `mapToUi`, keeping length and order.
 */
module DomainToUiModel {

  /** `mapToUIList(domainList)`: `domainList.map { mapToUi(it) }`. */
  function MapToUiList<D, U>(mapToUi: D -> U, domainList: seq<D>): (r: seq<U>)
    ensures |r| == |domainList|
    ensures forall i :: 0 <= i < |domainList| ==> r[i] == mapToUi(domainList[i])
  {
    if |domainList| == 0 then []
    else [mapToUi(domainList[0])] + MapToUiList(mapToUi, domainList[1..])
  }

  /** Mapping a concatenation maps each part. */
  lemma MapToUiListAppend<D, U>(mapToUi: D -> U, a: seq<D>, b: seq<D>)
    ensures MapToUiList(mapToUi, a + b) == MapToUiList(mapToUi, a) + MapToUiList(mapToUi, b)
  {
  }

  /** Mapping with a mapper that has a left inverse loses nothing: the inverse maps the list back. */
  lemma MapToUiListInverse<D, U>(mapToUi: D -> U, back: U -> D, domainList: seq<D>)
    requires forall d :: back(mapToUi(d)) == d
    ensures MapToUiList(back, MapToUiList(mapToUi, domainList)) == domainList
  {
  }

  /** Two lists with the same image under an injective mapper are equal. */
  lemma MapToUiListInjective<D, U>(mapToUi: D -> U, a: seq<D>, b: seq<D>)
    requires forall x, y :: mapToUi(x) == mapToUi(y) ==> x == y
    requires MapToUiList(mapToUi, a) == MapToUiList(mapToUi, b)
    ensures a == b
  {
    assert |a| == |b|;
    forall i | 0 <= i < |a| ensures a[i] == b[i] {
      assert MapToUiList(mapToUi, a)[i] == MapToUiList(mapToUi, b)[i];
    }
  }
}
