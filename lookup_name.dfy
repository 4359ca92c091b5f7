/**
 * The wrappers around a DNS lookup answer (neubot_cdn_test/lookup_name.py):
 * `LookupAnswer` holds the answer, authority and additional record lists and
 * extracts addresses from them; `LookupErr` holds the message of a failed
 * lookup and, after a join, the message of the IPv6 lookup as well.
 */
module LookupName {
  import opened Wrappers

  /** The record type codes of `dns.A` and `dns.AAAA`. */
  const TYPE_A: nat := 1
  const TYPE_AAAA: nat := 28

  datatype Family = AfInet | AfInet6

  /** `socket.inet_ntop`, a foreign call: passed in, never interpreted. */
  type Ntop = (Family, seq<bv8>) -> string

  datatype Payload = Payload(address: seq<bv8>, ttl: nat)

  /** One resource record of an answer: a type tag and an opaque address payload. */
  datatype Record = Record(name: string, rtype: nat, cls: nat, ttl: nat, auth: bool, payload: Payload)

  /** The exception `_address_to_string` raises for a type it cannot print. */
  datatype RuntimeError = RuntimeError

  /** One entry of the content list `LookupAnswer.__str__` serialises. */
  datatype Content = Content(name: string, rtype: nat, cls: nat, ttl: nat, auth: bool,
                             address: string, payloadTtl: nat)

  /** The header fields of a DNS message, each as `str()` renders it. */
  datatype DnsMessage = DnsMessage(id: string, rCode: string, maxSize: string, answer: string,
                                   recDes: string, recAv: string, queries: string,
                                   authority: string, opCode: string, ns: string, auth: string)

  predicate IsAddressType(t: nat) {
    t == TYPE_A || t == TYPE_AAAA
  }

  /** `_address_to_string`: print the payload with the family its type selects. */
  function AddressToString(elem: Record, ntop: Ntop): (r: Result<string, RuntimeError>)
    ensures r.Ok? <==> IsAddressType(elem.rtype)
    ensures r.Ok? ==> r.value == ntop(if elem.rtype == TYPE_A then AfInet else AfInet6, elem.payload.address)
  {
    if elem.rtype == TYPE_A then Ok(ntop(AfInet, elem.payload.address))
    else if elem.rtype == TYPE_AAAA then Ok(ntop(AfInet6, elem.payload.address))
    else Err(RuntimeError)
  }

  /** The addresses of the records of type `expected`, in answer order. */
  function Addresses(records: seq<Record>, expected: nat, ntop: Ntop): seq<string>
    requires IsAddressType(expected)
  {
    if records == [] then []
    else
      var rest := Addresses(records[1..], expected, ntop);
      if records[0].rtype == expected then [AddressToString(records[0], ntop).value] + rest else rest
  }

  function ContentOf(elem: Record, ntop: Ntop): Content
    requires IsAddressType(elem.rtype)
  {
    Content(elem.name, elem.rtype, elem.cls, elem.ttl, elem.auth,
            AddressToString(elem, ntop).value, elem.payload.ttl)
  }

  /** The content list of `__str__`: one entry per A or AAAA record, in answer order. */
  function Selected(records: seq<Record>, ntop: Ntop): (r: seq<Content>)
    ensures forall k :: 0 <= k < |r| ==> IsAddressType(r[k].rtype)
  {
    if records == [] then []
    else
      var rest := Selected(records[1..], ntop);
      if IsAddressType(records[0].rtype) then [ContentOf(records[0], ntop)] + rest else rest
  }

  /** The addresses carried by the entries of type `t` of a content list. */
  function EntryAddresses(entries: seq<Content>, t: nat): seq<string> {
    if entries == [] then []
    else
      var rest := EntryAddresses(entries[1..], t);
      if entries[0].rtype == t then [entries[0].address] + rest else rest
  }

  lemma {:induction false} AddressesAppend(a: seq<Record>, b: seq<Record>, expected: nat, ntop: Ntop)
    requires IsAddressType(expected)
    ensures Addresses(a + b, expected, ntop) == Addresses(a, expected, ntop) + Addresses(b, expected, ntop)
  {
    if a != [] {
      assert (a + b)[1..] == a[1..] + b;
      AddressesAppend(a[1..], b, expected, ntop);
    } else {
      assert a + b == b;
    }
  }

  /** An address is listed exactly when some record of the expected type prints to it. */
  lemma {:induction false} AddressesMember(records: seq<Record>, expected: nat, ntop: Ntop, x: string)
    requires IsAddressType(expected)
    ensures x in Addresses(records, expected, ntop) <==>
            exists i :: 0 <= i < |records| && records[i].rtype == expected &&
                        x == AddressToString(records[i], ntop).value
  {
    if records != [] {
      AddressesMember(records[1..], expected, ntop, x);
      if x in Addresses(records[1..], expected, ntop) {
        var i :| 0 < i + 1 < |records| && records[1..][i].rtype == expected &&
                 x == AddressToString(records[1..][i], ntop).value;
        assert records[i + 1] == records[1..][i];
      }
      if exists i :: 0 <= i < |records| && records[i].rtype == expected &&
                     x == AddressToString(records[i], ntop).value {
        var i :| 0 <= i < |records| && records[i].rtype == expected &&
                 x == AddressToString(records[i], ntop).value;
        if i > 0 {
          assert records[1..][i - 1] == records[i];
        }
      }
    }
  }

  lemma {:induction false} SelectedAppend(a: seq<Record>, b: seq<Record>, ntop: Ntop)
    ensures Selected(a + b, ntop) == Selected(a, ntop) + Selected(b, ntop)
  {
    if a != [] {
      assert (a + b)[1..] == a[1..] + b;
      SelectedAppend(a[1..], b, ntop);
    } else {
      assert a + b == b;
    }
  }

  /** The content list has as many entries as there are IPv4 and IPv6 addresses together. */
  lemma {:induction false} SelectedLength(records: seq<Record>, ntop: Ntop)
    ensures |Selected(records, ntop)| == |Addresses(records, TYPE_A, ntop)| + |Addresses(records, TYPE_AAAA, ntop)|
  {
    if records != [] {
      SelectedLength(records[1..], ntop);
    }
  }

  /** The entries of one address type carry exactly the addresses the getters return. */
  lemma {:induction false} SelectedAddresses(records: seq<Record>, t: nat, ntop: Ntop)
    requires IsAddressType(t)
    ensures EntryAddresses(Selected(records, ntop), t) == Addresses(records, t, ntop)
  {
    if records != [] {
      SelectedAddresses(records[1..], t, ntop);
    }
  }

  class LookupAnswer {
    var ans: seq<Record>
    var auth: seq<Record>
    var additional: seq<Record>

    constructor (result: (seq<Record>, seq<Record>, seq<Record>))
      ensures ans == result.0 && auth == result.1 && additional == result.2
    {
      ans := result.0;
      auth := result.1;
      additional := result.2;
    }

    /** `__str__` without the JSON rendering: the selected content list. */
    method StrContent(ntop: Ntop) returns (content: seq<Content>)
      ensures content == Selected(ans, ntop)
    {
      content := [];
      var k := 0;
      while k < |ans|
        invariant 0 <= k <= |ans|
        invariant Selected(ans, ntop) == content + Selected(ans[k..], ntop)
      {
        var elem := ans[k];
        assert ans[k..][1..] == ans[k + 1..];
        if IsAddressType(elem.rtype) {
          var address := AddressToString(elem, ntop);
          content := content + [Content(elem.name, elem.rtype, elem.cls, elem.ttl, elem.auth,
                                        address.value, elem.payload.ttl)];
        }
        k := k + 1;
      }
    }

    /** Append the records of the other answer to this one, in place. */
    method JoinIPv4IPv6(ipv6: LookupAnswer) returns (r: LookupAnswer)
      requires ipv6 != this
      modifies this
      ensures r == this
      ensures ans == old(ans) + ipv6.ans
      ensures auth == old(auth) && additional == old(additional)
    {
      var k := 0;
      while k < |ipv6.ans|
        invariant 0 <= k <= |ipv6.ans|
        invariant ans == old(ans) + ipv6.ans[..k]
        invariant auth == old(auth) && additional == old(additional)
      {
        ans := ans + [ipv6.ans[k]];
        k := k + 1;
      }
      assert ipv6.ans[..k] == ipv6.ans;
      r := this;
    }

    /** `_get_ipvx_addresses`: raises exactly when a record of a type that cannot be printed is expected. */
    method GetIPvXAddresses(expected: nat, ntop: Ntop) returns (r: Result<seq<string>, RuntimeError>)
      ensures r.Err? <==> !IsAddressType(expected) && exists i :: 0 <= i < |ans| && ans[i].rtype == expected
      ensures IsAddressType(expected) ==> r == Ok(Addresses(ans, expected, ntop))
      ensures !IsAddressType(expected) && r.Ok? ==> r.value == []
    {
      var content: seq<string> := [];
      var k := 0;
      while k < |ans|
        invariant 0 <= k <= |ans|
        invariant forall i :: 0 <= i < k ==> ans[i].rtype != expected || IsAddressType(expected)
        invariant IsAddressType(expected) ==> Addresses(ans, expected, ntop) == content + Addresses(ans[k..], expected, ntop)
        invariant !IsAddressType(expected) ==> content == []
      {
        var elem := ans[k];
        assert ans[k..] == [elem] + ans[k + 1..];
        if elem.rtype == expected {
          var address := AddressToString(elem, ntop);
          if address.Err? {
            return Err(address.error);
          }
          content := content + [address.value];
        }
        k := k + 1;
      }
      assert ans[k..] == [];
      assert IsAddressType(expected) ==> Addresses(ans, expected, ntop) == content;
      r := Ok(content);
    }

    method GetIPv4Addresses(ntop: Ntop) returns (r: seq<string>)
      ensures r == Addresses(ans, TYPE_A, ntop)
    {
      var res := GetIPvXAddresses(TYPE_A, ntop);
      r := res.value;
    }

    method GetIPv6Addresses(ntop: Ntop) returns (r: seq<string>)
      ensures r == Addresses(ans, TYPE_AAAA, ntop)
    {
      var res := GetIPvXAddresses(TYPE_AAAA, ntop);
      r := res.value;
    }
  }

  class LookupErr {
    var message: DnsMessage
    /** `message_add`: `""` until a join, then the other error's message. */
    var messageAdd: Option<DnsMessage>

    constructor (message: DnsMessage)
      ensures this.message == message && messageAdd == None
    {
      this.message := message;
      messageAdd := None;
    }

    /** The content list of `__str__`: the message, then the joined message if there is one. */
    function Content(): (r: seq<DnsMessage>)
      reads this
      ensures |r| == (if messageAdd.Some? then 2 else 1)
      ensures r[0] == message
      ensures messageAdd.Some? ==> r[1] == messageAdd.value
    {
      [message] + (if messageAdd.Some? then [messageAdd.value] else [])
    }

    method JoinIPv4IPv6(ipv6: LookupErr) returns (r: LookupErr)
      modifies this
      ensures r == this
      ensures message == old(message) && messageAdd == Some(old(ipv6.message))
    {
      messageAdd := Some(ipv6.message);
      r := this;
    }
  }
}
