/** The saved delivery addresses of a user, and the rule that keeps at
    most one of them marked as the default. The backend
    (`addUserAddress`) and the frontend (`AuthContext.addAddress`) apply
    the same rule. */
module Addresses {

  datatype Address = Address(
    id: string,
    street: string,
    city: string,
    state: string,
    postalCode: string,
    country: string,
    isDefault: bool)

  /** How many addresses are marked as the default. */
  function DefaultCount(addrs: seq<Address>): (n: nat)
    ensures n <= |addrs|
    ensures n == 0 <==> forall i :: 0 <= i < |addrs| ==> !addrs[i].isDefault
  {
    if addrs == [] then 0
    else (if addrs[|addrs| - 1].isDefault then 1 else 0) + DefaultCount(addrs[..|addrs| - 1])
  }

  predicate AtMostOneDefault(addrs: seq<Address>)
  {
    DefaultCount(addrs) <= 1
  }

  /** Every address with its default mark cleared. */
  function ClearDefaults(addrs: seq<Address>): (r: seq<Address>)
    ensures |r| == |addrs|
    ensures forall i :: 0 <= i < |r| ==> r[i] == addrs[i].(isDefault := false)
  {
    seq(|addrs|, i requires 0 <= i < |addrs| => addrs[i].(isDefault := false))
  }

  /** The addresses after one is added: a new default first clears the
      mark on every earlier address, then the new one goes at the end. */
  function WithAddress(addrs: seq<Address>, a: Address): (r: seq<Address>)
    ensures |r| == |addrs| + 1 && r[|addrs|] == a
    ensures forall i :: 0 <= i < |addrs| ==> r[i].id == addrs[i].id && r[i].street == addrs[i].street
  {
    (if a.isDefault then ClearDefaults(addrs) else addrs) + [a]
  }

  lemma {:induction false} DefaultCountSnoc(addrs: seq<Address>, a: Address)
    ensures DefaultCount(addrs + [a]) == DefaultCount(addrs) + if a.isDefault then 1 else 0
  {
    assert (addrs + [a])[..|addrs|] == addrs;
  }

  /** Adding an address appends exactly that address and changes no
      earlier address except, for a new default, its default mark. */
  lemma WithAddressAppends(addrs: seq<Address>, a: Address)
    ensures var r := WithAddress(addrs, a);
            && |r| == |addrs| + 1
            && r[|addrs|] == a
            && (forall i :: 0 <= i < |addrs| ==> r[i].(isDefault := addrs[i].isDefault) == addrs[i])
            && (!a.isDefault ==> r[..|addrs|] == addrs)
            && (a.isDefault ==> forall i :: 0 <= i < |addrs| ==> !r[i].isDefault)
  {
    var r := WithAddress(addrs, a);
    assert r[..|addrs|] == if a.isDefault then ClearDefaults(addrs) else addrs;
  }

  /** A new default address is then the only default; a non-default
      address leaves the number of defaults as it was. Either way at most
      one default survives if at most one existed before. */
  lemma {:induction false} WithAddressKeepsOneDefault(addrs: seq<Address>, a: Address)
    ensures a.isDefault ==> DefaultCount(WithAddress(addrs, a)) == 1
    ensures !a.isDefault ==> DefaultCount(WithAddress(addrs, a)) == DefaultCount(addrs)
    ensures AtMostOneDefault(addrs) ==> AtMostOneDefault(WithAddress(addrs, a))
  {
    var kept := if a.isDefault then ClearDefaults(addrs) else addrs;
    DefaultCountSnoc(kept, a);
    if a.isDefault {
      assert forall i :: 0 <= i < |kept| ==> !kept[i].isDefault;
    }
  }

  /** The `forEach` that sets `isDefault = false` on every address. */
  method UnsetDefaults(addrs: seq<Address>) returns (r: seq<Address>)
    ensures r == ClearDefaults(addrs)
  {
    r := addrs;
    var i := 0;
    while i < |r|
      invariant 0 <= i <= |r| == |addrs|
      invariant forall j :: 0 <= j < i ==> r[j] == addrs[j].(isDefault := false)
      invariant r[i..] == addrs[i..]
    {
      r := r[i := r[i].(isDefault := false)];
      i := i + 1;
    }
  }
}
