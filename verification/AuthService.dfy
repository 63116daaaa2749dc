/** The allow list of an API key as it is checked: loops over entries and octets, shifts and masks. */
module AuthServices {
  import opened Json
  import opened Bits
  import opened Cidr

  // The octets, folded from the left: the sum so far moves up by one octet in signed 32-bit arithmetic.
  function Reduce(octets: seq<nat>): int {
    if octets == [] then 0 else Shl(Reduce(octets[..|octets| - 1]), 8) + octets[|octets| - 1]
  }

  method IpToNumber(ip: string) returns (n: Option<nat>)
    ensures n == ParseIp(ip)
    ensures n.Some? ==> n.value < TWO_32
  {
    var parts := Split(Trim(ip), '.');
    if |parts| != 4 {
      return None;
    }
    var octets: seq<nat> := [];
    for i := 0 to 4
      invariant |octets| == i
      invariant forall k :: 0 <= k < i ==> OctetText(parts[k]) && octets[k] == Number(parts[k])
    {
      if !(1 <= |parts[i]| <= 3 && Digits(parts[i])) {
        return None;
      }
      var value := Number(parts[i]);
      if value > 255 {
        return None;
      }
      octets := octets + [value];
    }
    ReduceFour(octets);
    AddressRange(octets[0], octets[1], octets[2], octets[3]);
    return Some(ToUint32(Reduce(octets)));
  }

  method IpInCidr(ip: string, cidr: string) returns (r: bool)
    ensures r == InCidr(ip, cidr)
  {
    var parts := Split(cidr, '/');
    if parts[0] == "" || |parts| != 2 {
      return false;
    }
    var range, bitsStr := parts[0], parts[1];
    if !BitsText(bitsStr) {
      return false;
    }
    var bits := Number(bitsStr);
    if bits > 32 {
      return false;
    }
    var ipNum := IpToNumber(ip);
    var rangeNum := IpToNumber(range);
    if ipNum == None || rangeNum == None {
      return false;
    }
    var mask := Mask(bits);
    MaskedIsPrefix(ipNum.value, rangeNum.value, bits);
    return And(ipNum.value, mask) == And(rangeNum.value, mask);
  }

  // An address is let in exactly when some entry of the list lets it in, wherever it stands.
  method IsIpAllowed(clientIp: string, allowedIps: seq<string>) returns (allowed: bool)
    ensures allowed
      <==> exists entry <- allowedIps :: if '/' in entry then InCidr(clientIp, entry) else clientIp == entry
  {
    for i := 0 to |allowedIps|
      invariant forall k :: 0 <= k < i ==> !Allows(allowedIps[k], clientIp)
    {
      var entry := allowedIps[i];
      assert entry in allowedIps;
      if '/' in entry {
        var inside := IpInCidr(clientIp, entry);
        if inside {
          return true;
        }
      } else if clientIp == entry {
        return true;
      }
    }
    return false;
  }

  // ---------- helpers ----------

  // The accumulator turns negative when the first octet is 128 or more; the final >>> 0 undoes that.
  lemma ReduceFour(octets: seq<nat>)
    requires |octets| == 4 && forall k :: 0 <= k < 4 ==> octets[k] < 256
    ensures ToUint32(Reduce(octets)) == Address(octets[0], octets[1], octets[2], octets[3])
  {
    var a, b, c, d := octets[0], octets[1], octets[2], octets[3];
    ReduceStep(octets[..0], a, 0);
    assert octets[..1] == octets[..0] + [a];
    ReduceStep(octets[..1], b, a);
    assert octets[..2] == octets[..1] + [b];
    ReduceStep(octets[..2], c, a * 0x100 + b);
    assert octets[..3] == octets[..2] + [c];
    assert octets == octets[..3] + [d];
    LastStep(octets[..3], d, a * 0x1_0000 + b * 0x100 + c);
  }

  lemma ReduceStep(octets: seq<nat>, next: nat, acc: nat)
    requires Reduce(octets) == acc && acc < 0x1_0000
    ensures Reduce(octets + [next]) == acc * 256 + next
  {
    ReducePush(octets, next);
    Shl8(acc);
    Small(acc * 256);
  }

  lemma LastStep(octets: seq<nat>, next: nat, acc: nat)
    requires Reduce(octets) == acc && acc < 0x100_0000 && next < 256
    ensures ToUint32(Reduce(octets + [next])) == acc * 256 + next
  {
    ReducePush(octets, next);
    Shl8(acc);
    Wrapped(acc * 256, next);
  }

  lemma Small(x: nat)
    requires x < 0x8000_0000
    ensures ToInt32(x) == x
  {
  }

  lemma Wrapped(x: nat, next: nat)
    requires x + next < TWO_32
    ensures ToUint32(ToInt32(x) + next) == x + next
  {
  }

  lemma ReducePush(octets: seq<nat>, next: nat)
    ensures Reduce(octets + [next]) == Shl(Reduce(octets), 8) + next
  {
    assert (octets + [next])[..|octets|] == octets;
  }

  lemma Shl8(acc: nat)
    requires acc < 0x100_0000
    ensures Shl(acc, 8) == ToInt32(acc * 256)
  {
    Pow32();
    Small(acc);
    assert 8 % 32 == 8;
  }
}
