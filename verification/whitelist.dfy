/** config/config.go: reading the IP_WHITELIST setting. */
module Whitelist {
  import opened Wrappers
  import opened Text

  /** What the parser accepts as one address: exactly three dots. */
  predicate FourParts(ip: string) {
    Count(ip, '.') == 3
  }

  /** The value ParseIPWhitelist must return for each input. */
  predicate Parsed(ips: string, r: Result<seq<string>, string>) {
    if ips == "" then r == Success([])
    else if forall f :: f in Split(ips, ',') ==> FourParts(f) then r == Success(Split(ips, ','))
    else
      exists k | 0 <= k < |Split(ips, ',')| ::
        && (forall j :: 0 <= j < k ==> FourParts(Split(ips, ',')[j]))
        && !FourParts(Split(ips, ',')[k])
        && r == Failure("malformed whitelist IP: " + Split(ips, ',')[k])
  }

  method ParseIPWhitelist(ips: string) returns (r: Result<seq<string>, string>)
    ensures Parsed(ips, r)
  {
    if ips == "" {
      return Success([]);
    }
    var outIPs := [];
    var fields := Split(ips, ',');
    for i := 0 to |fields|
      invariant outIPs == fields[..i]
      invariant forall j :: 0 <= j < i ==> FourParts(fields[j])
    {
      SplitFields(fields[i], '.');
      if |Split(fields[i], '.')| != 4 {
        assert fields[i] in fields && !FourParts(fields[i]);
        return Failure("malformed whitelist IP: " + fields[i]);
      }
      outIPs := outIPs + [fields[i]];
    }
    assert outIPs == fields;
    return Success(outIPs);
  }

  /** A non-empty setting is accepted iff all its fields have four parts; joining the accepted list gives it back. */
  lemma ParseThenJoin(ips: string, r: Result<seq<string>, string>)
    requires ips != "" && Parsed(ips, r)
    ensures r.Success? <==> forall f :: f in Split(ips, ',') ==> FourParts(f)
    ensures r.Success? ==> Join(r.value, ',') == ips
  {
    JoinAfterSplit(ips, ',');
  }

  /** Every non-empty list of comma-free, four-part addresses is what its join parses to. */
  lemma JoinThenParse(addresses: seq<string>, r: Result<seq<string>, string>)
    requires addresses != []
    requires forall a :: a in addresses ==> ',' !in a && FourParts(a)
    requires Parsed(Join(addresses, ','), r)
    ensures r == Success(addresses)
  {
    SplitAfterJoin(addresses, ',');
    assert addresses[0] in addresses;
    assert Join(addresses, ',') != "";
  }
}
