/** TLS settings of the admission plugin as command line text. */
module Tls {
  function TLSVersionToArg(version: string): string {
    match version
    case "VersionTLS10" => "tls1_0"
    case "VersionTLS11" => "tls1_1"
    case "VersionTLS12" => "tls1_2"
    case "VersionTLS13" => "tls1_3"
    case _ => version
  }

  /** The library's conversion: names not in its table are dropped. */
  function OpenSSLToIANA(names: map<string, string>, ciphers: seq<string>): seq<string> {
    if ciphers == [] then []
    else (if ciphers[0] in names then [names[ciphers[0]]] else []) + OpenSSLToIANA(names, ciphers[1..])
  }

  function TLSCiphersToArgs(names: map<string, string>, ciphers: seq<string>): seq<string> {
    var iana := OpenSSLToIANA(names, ciphers);
    if |iana| == 0 then ciphers else iana
  }

  /** The places of the ciphers that are in the table, in order. */
  ghost predicate PlacesInTable(names: map<string, string>, ciphers: seq<string>, places: seq<nat>) {
    && (forall i, j :: 0 <= i < j < |places| ==> places[i] < places[j])
    && (forall i :: 0 <= i < |places| ==> places[i] < |ciphers| && ciphers[places[i]] in names)
    && (forall i :: 0 <= i < |ciphers| ==> (ciphers[i] in names <==> i in places))
  }

  /** The images of the ciphers that are in the table, in the order of the ciphers; if there are none, the ciphers. */
  ghost predicate ConvertedBy(names: map<string, string>, ciphers: seq<string>, result: seq<string>) {
    exists places: seq<nat> :: PlacesInTable(names, ciphers, places) &&
      if places == [] then result == ciphers
      else |result| == |places| && forall i :: 0 <= i < |places| ==> result[i] == names[ciphers[places[i]]]
  }

  lemma {:induction false} OneMoreName(names: map<string, string>, front: seq<string>, last: string)
    ensures OpenSSLToIANA(names, front + [last]) ==
            OpenSSLToIANA(names, front) + if last in names then [names[last]] else []
  {
    var all := front + [last];
    if front == [] {
      assert all[1..] == [];
    } else {
      OneMoreName(names, front[1..], last);
      assert all[1..] == front[1..] + [last];
    }
  }

  ghost predicate ImagesAt(names: map<string, string>, ciphers: seq<string>, places: seq<nat>, iana: seq<string>) {
    && PlacesInTable(names, ciphers, places)
    && |iana| == |places|
    && forall i :: 0 <= i < |places| ==> iana[i] == names[ciphers[places[i]]]
  }

  lemma NextPlace(names: map<string, string>, front: seq<string>, last: string, places: seq<nat>, iana: seq<string>)
    requires ImagesAt(names, front, places, iana)
    ensures last in names ==> ImagesAt(names, front + [last], places + [|front|], iana + [names[last]])
    ensures last !in names ==> ImagesAt(names, front + [last], places, iana)
  {
    var all := front + [last];
    assert forall i :: 0 <= i < |front| ==> all[i] == front[i];
    assert all[|front|] == last && |front| !in places;
  }

  lemma {:induction false} ImagesInOrder(names: map<string, string>, ciphers: seq<string>) returns (places: seq<nat>)
    ensures ImagesAt(names, ciphers, places, OpenSSLToIANA(names, ciphers))
  {
    if ciphers == [] {
      places := [];
    } else {
      hide OpenSSLToIANA, ImagesAt;
      var n := |ciphers| - 1;
      places := ImagesInOrder(names, ciphers[..n]);
      NextPlace(names, ciphers[..n], ciphers[n], places, OpenSSLToIANA(names, ciphers[..n]));
      OneMoreName(names, ciphers[..n], ciphers[n]);
      assert ciphers == ciphers[..n] + [ciphers[n]];
      if ciphers[n] in names {
        places := places + [n];
      }
    }
  }

  /** The conversion, said over the table. */
  lemma CiphersAreConverted(names: map<string, string>, ciphers: seq<string>)
    ensures ConvertedBy(names, ciphers, TLSCiphersToArgs(names, ciphers))
  {
    var places := ImagesInOrder(names, ciphers);
  }

  /** Go's strings.Join with a comma. */
  function Join(parts: seq<string>): string {
    if parts == [] then ""
    else if |parts| == 1 then parts[0]
    else parts[0] + "," + Join(parts[1..])
  }

  /** Go's strings.Split at commas. */
  function Split(text: string): (parts: seq<string>)
    ensures parts != []
    ensures forall i :: 0 <= i < |parts| ==> ',' !in parts[i]
  {
    if text == "" then [""]
    else
      var rest := Split(text[1..]);
      if text[0] == ',' then [""] + rest else [[text[0]] + rest[0]] + rest[1..]
  }

  lemma {:induction false} SplitAtComma(part: string, rest: string)
    requires ',' !in part
    ensures Split(part) == [part]
    ensures Split(part + "," + rest) == [part] + Split(rest)
  {
    var text := part + "," + rest;
    if part == "" {
      assert text[1..] == rest;
    } else {
      SplitAtComma(part[1..], rest);
      assert [part[0]] + part[1..] == part;
      assert text[1..] == part[1..] + "," + rest;
    }
  }

  /** Splitting the joined text gives the list back exactly when the list has a member and no member has a comma. */
  lemma {:induction false} SplitJoin(parts: seq<string>)
    ensures Split(Join(parts)) == parts <==> parts != [] && forall i :: 0 <= i < |parts| ==> ',' !in parts[i]
  {
    if parts != [] && forall i :: 0 <= i < |parts| ==> ',' !in parts[i] {
      if |parts| == 1 {
        SplitAtComma(parts[0], "");
      } else {
        SplitJoin(parts[1..]);
        SplitAtComma(parts[0], Join(parts[1..]));
      }
    }
  }
}
