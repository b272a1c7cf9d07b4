/** The `NationalSite` record of proj2_nps.py: five display fields, each with a
    "No <Field>" sentinel as its default, and the one-line `info()` rendering. */
module NationalSites {

  const NoCategory: string := "No Category"
  const NoName: string := "No Name"
  const NoAddress: string := "No Address"
  const NoZipcode: string := "No Zipcode"
  const NoPhone: string := "No Phone"

  /** `NationalSite(category=..., name=..., ...)`: every keyword argument left out takes its sentinel. */
  datatype NationalSite = NationalSite(
    category: string := NoCategory,
    name: string := NoName,
    address: string := NoAddress,
    zipcode: string := NoZipcode,
    phone: string := NoPhone)
  {
    /** `info()`: "<name> (<category>): <address> <zipcode>". */
    function Info(): string {
      name + " (" + category + "): " + address + " " + zipcode
    }
  }

  /** A site built with no arguments carries the five sentinels. */
  lemma DefaultSite()
    ensures var s := NationalSite();
      s.category == "No Category" && s.name == "No Name" && s.address == "No Address"
      && s.zipcode == "No Zipcode" && s.phone == "No Phone"
  {
  }

  /** The phone number never shows in `info()`: changing it leaves the rendering as it was. */
  lemma InfoIgnoresPhone(s: NationalSite, phone: string)
    ensures s.(phone := phone).Info() == s.Info()
  {
  }

  /** Where each field sits in `info()`: the name, " (", the category, "): ", the
      address, one space and the zipcode, with nothing else around them. */
  lemma InfoLayout(s: NationalSite)
    ensures var r, n, c, a, z := s.Info(), |s.name|, |s.category|, |s.address|, |s.zipcode|;
      && |r| == n + c + a + z + 6
      && r[..n] == s.name
      && r[n..n + 2] == " ("
      && r[n + 2..n + 2 + c] == s.category
      && r[n + 2 + c..n + 5 + c] == "): "
      && r[n + 5 + c..n + 5 + c + a] == s.address
      && r[n + 5 + c + a] == ' '
      && r[n + 6 + c + a..] == s.zipcode
  {
  }
}
