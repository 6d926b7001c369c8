/** `formatters.address`: the shortened address shown once a wallet is connected. */
module Formatting {

  function Min(a: nat, b: nat): nat {
    if a <= b then a else b
  }

  /**
   * How `String.prototype.slice` reads an index: a negative one counts back
   * from the end, and the result is clamped to `[0, len]`.
   */
  function ClampIndex(i: int, len: nat): (r: nat)
    ensures r <= len
    ensures 0 <= i <= len ==> r == i
    ensures i < 0 && len + i >= 0 ==> r == len + i
    ensures len + i < 0 ==> r == 0
    ensures i > len ==> r == len
  {
    if i < 0 then (if len + i < 0 then 0 else len + i)
    else if i > len then len
    else i
  }

  /** `s.slice(start, end)`: the characters between the two clamped indices, or none. */
  function JsSlice(s: string, start: int, end: int): (r: string)
    ensures var a, b := ClampIndex(start, |s|), ClampIndex(end, |s|);
      && |r| == (if a < b then b - a else 0)
      && forall k :: 0 <= k < |r| ==> r[k] == s[a + k]
  {
    var a, b := ClampIndex(start, |s|), ClampIndex(end, |s|);
    if a < b then s[a..b] else []
  }

  /**
   * `address.slice(0, 6) + "..." + address.slice(-4)`: at most the first six
   * characters, three dots, and at most the last four characters. A short
   * address shows characters twice rather than failing.
   */
  function ShortAddress(address: string): (r: string)
    ensures r == address[..Min(6, |address|)] + "..." + address[|address| - Min(4, |address|)..]
  {
    JsSlice(address, 0, 6) + "..." + JsSlice(address, -4, |address|)
  }

  /** An address of ten characters or more shows as thirteen: six, three dots, four. */
  lemma ShortAddressOfLongAddress(address: string)
    requires |address| >= 10
    ensures |ShortAddress(address)| == 13
    ensures ShortAddress(address)[..6] == address[..6]
    ensures ShortAddress(address)[6..9] == "..."
    ensures ShortAddress(address)[9..] == address[|address| - 4..]
  {
  }
}
