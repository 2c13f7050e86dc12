/** The address shortener of the wallet screens. */
module WalletUi {

  /** The horizontal ellipsis placed between the two ends of an address. */
  const Ellipsis: char := '\U{2026}'

  function Min(a: int, b: int): int {
    if a < b then a else b
  }

  /**
   * The first six characters, an ellipsis, and the last four
   * (`a.slice(0, 6)` and `a.slice(-4)` both stop at the ends of a short string).
   */
  function ShortAddress(a: string): (r: string)
    ensures a == [] ==> r == []
    ensures a != [] ==> |r| == Min(6, |a|) + 1 + Min(4, |a|)
    ensures a != [] ==> r[..Min(6, |a|)] == a[..Min(6, |a|)]
    ensures a != [] ==> r[Min(6, |a|)] == Ellipsis
    ensures a != [] ==> r[|r| - Min(4, |a|)..] == a[|a| - Min(4, |a|)..]
  {
    if a == [] then []
    else
      var head := if |a| < 6 then a else a[..6];
      var tail := if |a| < 4 then a else a[|a| - 4..];
      head + [Ellipsis] + tail
  }

  lemma ShortAddressExample()
    ensures ShortAddress("7xKXtg2CWgAsU") == "7xKXtg\U{2026}gAsU"
    ensures ShortAddress("abc") == "abc\U{2026}abc"
  {
  }
}
