/**
 * Encoded polylines: the decoder the trips API uses and the encoder its tests pair it with, on coordinates
 * scaled to integers. Each value is a zigzag number in base 32, least digit first, five bits to a character.
 */
module Polyline {
  import opened Ordering

  datatype Point = Point(lat: int, lng: int)

  // ----- Bits

  function Pow2(k: nat): (p: nat)
    ensures p >= 1
  {
    if k == 0 then 1 else 2 * Pow2(k - 1)
  }

  /** Bitwise or. */
  function Or(a: nat, b: nat): nat {
    if a == 0 then b
    else if b == 0 then a
    else (if a % 2 == 1 || b % 2 == 1 then 1 else 0) + 2 * Or(a / 2, b / 2)
  }

  /** Left shift. */
  function Shl(x: nat, k: nat): nat {
    x * Pow2(k)
  }

  /** Bits or-ed in above all bits set so far are bits added. */
  lemma {:induction false} OrAbove(a: nat, x: nat, k: nat)
    requires a < Pow2(k)
    ensures Or(a, Shl(x, k)) == a + Shl(x, k)
  {
    if k > 0 && a > 0 && x > 0 {
      assert Shl(x, k) == 2 * Shl(x, k - 1);
      OrAbove(a / 2, x, k - 1);
    }
  }

  lemma {:induction false} OrCommutes(a: nat, b: nat)
    ensures Or(a, b) == Or(b, a)
  {
    if a > 0 && b > 0 {
      OrCommutes(a / 2, b / 2);
    }
  }

  lemma Pow2Plus5(k: nat)
    ensures Pow2(k + 5) == 32 * Pow2(k)
  {
    assert Pow2(k + 5) == 2 * Pow2(k + 4) == 4 * Pow2(k + 3) == 8 * Pow2(k + 2) == 16 * Pow2(k + 1);
  }

  // ----- One value

  /** The digit a character carries, continuation bit included; negative below '?'. */
  function Digit(c: char): int {
    c as int - 63
  }

  /** The last character of a value: no continuation bit. */
  predicate IsFinal(c: char) {
    Digit(c) < 0x20
  }

  datatype Reading = Value(number: nat, rest: string) | Truncated

  /** The value a string starts with, and what follows it. */
  function ReadValue(s: string): (r: Reading)
    ensures r.Value? ==> |r.rest| < |s|
  {
    if s == "" then Truncated
    else if IsFinal(s[0]) then Value(Digit(s[0]) % 32, s[1..])
    else
      var tail := ReadValue(s[1..]);
      if tail.Truncated? then Truncated else Value(Digit(s[0]) % 32 + 32 * tail.number, tail.rest)
  }

  /** Zigzag: the sign goes into the lowest bit. */
  function Zigzag(n: int): nat {
    if n < 0 then -2 * n - 1 else 2 * n
  }

  function Unzigzag(n: nat): int {
    if n % 2 == 1 then -(n / 2) - 1 else n / 2
  }

  /** The characters of a number. */
  function Printed(n: nat): (s: string)
    ensures s != ""
  {
    if n < 0x20 then [(n + 63) as char] else [(n % 32 + 0x20 + 63) as char] + Printed(n / 32)
  }

  // ----- Whole polylines

  /** The points a string stands for, from a point to start at; none if its last value is cut short. */
  function Points(s: string, from: Point): Option<seq<Point>>
    decreases |s|
  {
    if s == "" then Some([])
    else
      var lat := ReadValue(s);
      if lat.Truncated? then None
      else
        var lng := ReadValue(lat.rest);
        if lng.Truncated? then None
        else
          var point := Moved(from, lat.number, lng.number);
          var others := Points(lng.rest, point);
          if others.None? then None else Some([point] + others.value)
  }

  /** The next point, given the two values read. */
  function Moved(from: Point, lat: nat, lng: nat): Point {
    Point(from.lat + Unzigzag(lat), from.lng + Unzigzag(lng))
  }

  const ORIGIN := Point(0, 0)

  function Decode(s: string): seq<Point> {
    var points := Points(s, ORIGIN);
    if points.None? then [] else points.value
  }

  function PrintedPoint(from: Point, to: Point): string {
    Printed(Zigzag(to.lat - from.lat)) + Printed(Zigzag(to.lng - from.lng))
  }

  function EncodeFrom(points: seq<Point>, from: Point): string {
    if points == [] then "" else PrintedPoint(from, points[0]) + EncodeFrom(points[1..], points[0])
  }

  function Encode(points: seq<Point>): string {
    EncodeFrom(points, ORIGIN)
  }

  // ----- The decoder

  /** The whole value is the digits read so far plus what is still to be read, shifted. */
  ghost predicate ContinuesAs(whole: Reading, result: nat, shift: nat, remaining: Reading) {
    && result < Pow2(shift)
    && whole == if remaining.Truncated? then Truncated else Value(result + Shl(remaining.number, shift), remaining.rest)
  }

  lemma NothingRead(whole: Reading)
    ensures ContinuesAs(whole, 0, 0, whole)
  {
  }

  lemma NextDigit(whole: Reading, result: nat, shift: nat, s: string)
    requires s != "" && ContinuesAs(whole, result, shift, ReadValue(s))
    ensures
      var after := Or(result, Shl(Digit(s[0]) % 32, shift));
      if IsFinal(s[0]) then whole == Value(after, s[1..]) else ContinuesAs(whole, after, shift + 5, ReadValue(s[1..]))
  {
    hide Or, Shl, Pow2;
    var digit := Digit(s[0]) % 32;
    OrAbove(result, digit, shift);
    DigitFits(result, digit, shift);
    var tail := ReadValue(s[1..]);
    if !IsFinal(s[0]) && tail.Value? {
      ShlSum(digit, tail.number, shift);
    }
  }

  lemma DigitFits(result: nat, digit: nat, shift: nat)
    requires result < Pow2(shift) && digit < 32
    ensures result + Shl(digit, shift) < Pow2(shift + 5)
  {
    Pow2Plus5(shift);
    assert digit * Pow2(shift) <= 31 * Pow2(shift);
  }

  lemma ShlSum(digit: nat, number: nat, shift: nat)
    ensures Shl(digit + 32 * number, shift) == Shl(digit, shift) + Shl(number, shift + 5)
  {
    Pow2Plus5(shift);
    var power := Pow2(shift);
    assert (digit + 32 * number) * power == digit * power + number * (32 * power);
  }

  /** One signed value, read from `start` on with shifts and ors; not ok if the string ends first. */
  method ReadNumber(encoded: string, start: nat) returns (ok: bool, delta: int, index: nat)
    requires start <= |encoded|
    ensures ok <==> ReadValue(encoded[start..]).Value?
    ensures ok ==>
              && start < index <= |encoded|
              && ReadValue(encoded[start..]) == Value(ReadValue(encoded[start..]).number, encoded[index..])
              && delta == Unzigzag(ReadValue(encoded[start..]).number)
  {
    hide Or, Shl, ContinuesAs, ReadValue;
    var result, shift := 0, 0;
    index := start;
    ghost var whole := ReadValue(encoded[start..]);
    NothingRead(whole);
    while true
      invariant start <= index <= |encoded|
      invariant ContinuesAs(whole, result, shift, ReadValue(encoded[index..]))
      decreases |encoded| - index
    {
      if index >= |encoded| {
        CutShort(whole, result, shift, encoded[index..]);
        return false, 0, index;
      }
      NextDigit(whole, result, shift, encoded[index..]);
      assert encoded[index..][1..] == encoded[index + 1..];
      var b := Digit(encoded[index]);
      index := index + 1;
      result := Or(result, Shl(b % 32, shift));
      shift := shift + 5;
      if b < 0x20 {
        break;
      }
    }
    ok := true;
    delta := Unzigzag(result);
  }

  lemma CutShort(whole: Reading, result: nat, shift: nat, s: string)
    requires s == "" && ContinuesAs(whole, result, shift, ReadValue(s))
    ensures whole.Truncated?
  {
  }

  /** decode_polyline: nothing for an absent, empty or cut-short string, else all its points. */
  method DecodePolyline(encoded: Option<string>) returns (coordinates: seq<Point>)
    ensures coordinates == if encoded.None? then [] else Decode(encoded.value)
  {
    hide ReadValue, Unzigzag;
    if encoded.None? || encoded.value == "" {
      return [];
    }
    var s := encoded.value;
    coordinates := [];
    var index, lat, lng := 0, 0, 0;
    assert s[0..] == s;
    NoneYet(Points(s, ORIGIN));
    while index < |s|
      invariant index <= |s|
      invariant Extends(Points(s, ORIGIN), coordinates, Points(s[index..], Point(lat, lng)))
    {
      NextPoint(s[index..], Point(lat, lng), Points(s, ORIGIN), coordinates);
      var start := index;
      var ok, dlat, middle := ReadNumber(s, start);
      if !ok {
        return [];
      }
      var dlng;
      ok, dlng, index := ReadNumber(s, middle);
      if !ok {
        return [];
      }
      lat, lng := lat + dlat, lng + dlng;
      coordinates := coordinates + [Point(lat, lng)];
    }
    assert s[index..] == "";
  }

  /** The points found so far, then those still to come, are all the points. */
  ghost predicate Extends(all: Option<seq<Point>>, found: seq<Point>, others: Option<seq<Point>>) {
    if others.None? then all.None? else all == Some(found + others.value)
  }

  lemma NoneYet(all: Option<seq<Point>>)
    ensures Extends(all, [], all)
  {
    if all.Some? {
      assert [] + all.value == all.value;
    }
  }

  lemma NextPoint(s: string, from: Point, all: Option<seq<Point>>, found: seq<Point>)
    requires s != "" && Extends(all, found, Points(s, from))
    ensures
      var lat := ReadValue(s);
      if lat.Truncated? then all.None?
      else
        var lng := ReadValue(lat.rest);
        if lng.Truncated? then all.None?
        else
          var point := Moved(from, lat.number, lng.number);
          Extends(all, found + [point], Points(lng.rest, point))
  {
    hide ReadValue, Moved;
    var lat := ReadValue(s);
    if lat.Value? {
      var lng := ReadValue(lat.rest);
      if lng.Value? {
        var point := Moved(from, lat.number, lng.number);
        var others := Points(lng.rest, point);
        if others.Some? {
          assert found + ([point] + others.value) == found + [point] + others.value;
        }
      }
    }
  }

  // ----- The encoder

  /** One signed number: zigzag, then its base-32 digits, all but the last with the continuation bit. */
  method EncodeSigned(num: int) returns (s: string)
    ensures s == Printed(Zigzag(num))
  {
    hide Or, Printed;
    var rest: nat := if num < 0 then -(2 * num) - 1 else 2 * num;
    s := "";
    assert s + Printed(rest) == Printed(Zigzag(num));
    while rest >= 0x20
      invariant s + Printed(rest) == Printed(Zigzag(num))
      decreases rest
    {
      WithContinuation(rest % 32);
      PrintedDigit(s, rest);
      s := s + [(Or(0x20, rest % 32) + 63) as char];
      rest := rest / 32;
    }
    PrintedLast(rest);
    s := s + [(rest + 63) as char];
  }

  lemma PrintedDigit(s: string, n: nat)
    requires n >= 0x20
    ensures s + Printed(n) == s + [(n % 32 + 0x20 + 63) as char] + Printed(n / 32)
  {
    assert s + ([(n % 32 + 0x20 + 63) as char] + Printed(n / 32))
        == s + [(n % 32 + 0x20 + 63) as char] + Printed(n / 32);
  }

  lemma PrintedLast(n: nat)
    requires n < 0x20
    ensures Printed(n) == [(n + 63) as char]
  {
  }

  lemma WithContinuation(digit: nat)
    requires digit < 0x20
    ensures Or(0x20, digit) == digit + 0x20
  {
    assert Pow2(5) == 32 by { Pow2Plus5(0); }
    hide Or;
    OrAbove(digit, 1, 5);
    OrCommutes(digit, 0x20);
  }

  method EncodePolyline(coords: seq<Point>) returns (result: string)
    ensures result == Encode(coords)
  {
    hide Printed, Zigzag;
    result := "";
    var prevLat, prevLng := 0, 0;
    assert coords[0..] == coords;
    for i := 0 to |coords|
      invariant result + EncodeFrom(coords[i..], Point(prevLat, prevLng)) == Encode(coords)
    {
      var lat := EncodeSigned(coords[i].lat - prevLat);
      var lng := EncodeSigned(coords[i].lng - prevLng);
      assert coords[i..][1..] == coords[i + 1..];
      assert result + (lat + lng + EncodeFrom(coords[i + 1..], coords[i]))
          == result + lat + lng + EncodeFrom(coords[i + 1..], coords[i]);
      result := result + lat + lng;
      prevLat, prevLng := coords[i].lat, coords[i].lng;
    }
  }

  // ----- The round trip

  lemma {:induction false} ReadPrinted(n: nat, t: string)
    ensures ReadValue(Printed(n) + t) == Value(n, t)
  {
    if n < 0x20 {
      assert (Printed(n) + t)[1..] == t;
    } else {
      ReadPrinted(n / 32, t);
      assert (Printed(n) + t)[1..] == Printed(n / 32) + t;
    }
  }

  lemma ZigzagRoundTrip(n: int)
    ensures Unzigzag(Zigzag(n)) == n
  {
  }

  lemma UnzigzagRoundTrip(n: nat)
    ensures Zigzag(Unzigzag(n)) == n
  {
  }

  lemma {:induction false} PointsOfEncoding(points: seq<Point>, from: Point)
    ensures Points(EncodeFrom(points, from), from) == Some(points)
  {
    hide ReadValue, Printed, Zigzag, Unzigzag;
    if points != [] {
      var to, others := points[0], EncodeFrom(points[1..], points[0]);
      var lat, lng := Zigzag(to.lat - from.lat), Zigzag(to.lng - from.lng);
      assert EncodeFrom(points, from) == Printed(lat) + (Printed(lng) + others);
      ReadPrinted(lat, Printed(lng) + others);
      ReadPrinted(lng, others);
      ZigzagRoundTrip(to.lat - from.lat);
      ZigzagRoundTrip(to.lng - from.lng);
      PointsOfEncoding(points[1..], to);
      assert Moved(from, lat, lng) == to;
      assert [to] + points[1..] == points;
    }
  }

  /** Decoding what the encoder writes gives back exactly the points, for every list of integer pairs. */
  lemma RoundTrip(points: seq<Point>)
    ensures Decode(Encode(points)) == points
  {
    PointsOfEncoding(points, ORIGIN);
  }

  // ----- What decodes

  function Finals(s: string): nat {
    if s == "" then 0 else (if IsFinal(s[0]) then 1 else 0) + Finals(s[1..])
  }

  lemma {:induction false} ReadUsesOneFinal(s: string)
    ensures ReadValue(s).Truncated? <==> Finals(s) == 0
    ensures
      var r := ReadValue(s);
      r.Value? ==>
        && Finals(r.rest) == Finals(s) - 1
        && r.rest == s[|s| - |r.rest|..]
        && IsFinal(s[|s| - |r.rest| - 1])
  {
    if s != "" && !IsFinal(s[0]) {
      ReadUsesOneFinal(s[1..]);
    }
  }

  /** The string ends where a value ends, and holds a whole number of pairs. */
  predicate Complete(s: string) {
    s == "" || (IsFinal(s[|s| - 1]) && Finals(s) % 2 == 0)
  }

  lemma {:induction false} PointsIffComplete(s: string, from: Point)
    ensures Points(s, from).Some? <==> Complete(s)
    ensures Points(s, from).Some? ==> |Points(s, from).value| == Finals(s) / 2
    decreases |s|
  {
    hide ReadValue, Moved, Finals, Complete;
    NoFinals();
    CompleteStep(s);
    if s != "" && ReadValue(s).Value? {
      var lat := ReadValue(s);
      var lng := ReadValue(lat.rest);
      if lng.Value? {
        PointsIffComplete(lng.rest, Moved(from, lat.number, lng.number));
      }
    }
  }

  /** Whether a string is complete, and how many values it holds, follows from what is left after two values. */
  lemma CompleteStep(s: string)
    ensures s == "" ==> Complete(s)
    ensures s != "" ==>
              var lat := ReadValue(s);
              if lat.Truncated? then !Complete(s)
              else
                var lng := ReadValue(lat.rest);
                if lng.Truncated? then !Complete(s)
                else (Complete(s) <==> Complete(lng.rest)) && Finals(s) == Finals(lng.rest) + 2
  {
    hide ReadValue, IsFinal, Finals;
    NoFinals();
    if s != "" {
      ReadUsesOneFinal(s);
      var lat := ReadValue(s);
      if lat.Truncated? {
        LastFinal(s);
      } else {
        ReadUsesOneFinal(lat.rest);
        var lng := ReadValue(lat.rest);
        if lng.Value? {
          assert lng.rest == s[|s| - |lng.rest|..];
        }
      }
    }
  }

  lemma NoFinals()
    ensures Finals("") == 0
  {
  }

  lemma {:induction false} LastFinal(s: string)
    requires s != "" && Finals(s) == 0
    ensures !IsFinal(s[|s| - 1])
  {
    if |s| > 1 {
      LastFinal(s[1..]);
    }
  }

  /**
   * Exactly when decoding yields anything: the string is not empty, its last character ends a value, and it
   * holds an even number of values. Then there is one point for every two of them.
   */
  lemma DecodesIff(s: string)
    ensures Decode(s) != [] <==> s != "" && Complete(s)
    ensures Complete(s) ==> |Decode(s)| == Finals(s) / 2
  {
    hide Points;
    PointsIffComplete(s, ORIGIN);
    if s != "" && Complete(s) {
      OneFinal(s);
    }
  }

  lemma {:induction false} OneFinal(s: string)
    requires s != "" && IsFinal(s[|s| - 1])
    ensures Finals(s) >= 1
  {
    if |s| > 1 {
      OneFinal(s[1..]);
    }
  }

  // ----- Cutting a string short

  lemma {:induction false} ReadAppend(s: string, t: string)
    requires ReadValue(s).Value?
    ensures ReadValue(s + t) == Value(ReadValue(s).number, ReadValue(s).rest + t)
  {
    assert (s + t)[1..] == s[1..] + t;
    if !IsFinal(s[0]) {
      ReadAppend(s[1..], t);
    }
  }

  function LastOr(points: seq<Point>, from: Point): Point {
    if points == [] then from else points[|points| - 1]
  }

  /** Decoding goes on where a complete first part ended. */
  lemma {:induction false} PointsAppend(s: string, t: string, from: Point)
    requires Points(s, from).Some?
    ensures
      var head := Points(s, from).value;
      var tail := Points(t, LastOr(head, from));
      Points(s + t, from) == if tail.None? then None else Some(head + tail.value)
    decreases |s|
  {
    hide ReadValue, Moved;
    var head := Points(s, from).value;
    var tail := Points(t, LastOr(head, from));
    if s == "" {
      assert s + t == t;
      assert tail.Some? ==> head + tail.value == tail.value;
    } else {
      var lat := ReadValue(s);
      var lng := ReadValue(lat.rest);
      var point := Moved(from, lat.number, lng.number);
      ReadAppend(s, t);
      ReadAppend(lat.rest, t);
      PointsAppend(lng.rest, t, point);
      assert LastOr(head, from) == LastOr(head[1..], point);
      assert tail.Some? ==> [point] + (head[1..] + tail.value) == head + tail.value;
    }
  }

  /** The points of a complete first part are the first points of the whole. */
  lemma CompletePart(s: string, t: string)
    requires Complete(s) && Points(s + t, ORIGIN).Some?
    ensures Decode(s) <= Decode(s + t)
  {
    hide Points, Complete;
    PointsIffComplete(s, ORIGIN);
    PointsAppend(s, t, ORIGIN);
  }

  /** A polyline cut short anywhere decodes to its first points, or to nothing; never to a wrong point. */
  lemma CutDecodesToPrefix(points: seq<Point>, k: nat)
    requires k <= |Encode(points)|
    ensures Decode(Encode(points)[..k]) <= points
    ensures Complete(Encode(points)[..k]) ==> |Decode(Encode(points)[..k])| == Finals(Encode(points)[..k]) / 2
  {
    hide Points, Encode, Complete, Decode;
    var whole := Encode(points);
    var cut := whole[..k];
    DecodesIff(cut);
    if Complete(cut) {
      assert cut + whole[k..] == whole;
      PointsOfEncoding(points, ORIGIN);
      EncodeIs(points);
      RoundTrip(points);
      CompletePart(cut, whole[k..]);
    }
  }

  lemma EncodeIs(points: seq<Point>)
    ensures Encode(points) == EncodeFrom(points, ORIGIN)
  {
  }

  // ----- The strings the encoder writes

  /** Only '?' to '~', and never '?' as the last digit of a longer value. */
  predicate Clean(s: string, continued: bool) {
    s == "" || (
      && 0 <= Digit(s[0]) < 0x40
      && (continued ==> Digit(s[0]) != 0)
      && Clean(s[1..], !IsFinal(s[0])))
  }

  /** The first digit of a longer value, and the rest. */
  lemma PrintedFirst(n: nat, t: string)
    requires n >= 0x20
    ensures (Printed(n) + t)[0] == (n % 32 + 0x20 + 63) as char && (Printed(n) + t)[1..] == Printed(n / 32) + t
  {
    var first := (n % 32 + 0x20 + 63) as char;
    assert Printed(n) + t == [first] + (Printed(n / 32) + t);
  }

  /** A string that starts with a value is clean exactly when printing the value gives its characters back. */
  predicate ReprintsClean(s: string, continued: bool)
    requires ReadValue(s).Value?
  {
    var r := ReadValue(s);
    Clean(s, continued) <==> Printed(r.number) + r.rest == s && (continued ==> r.number > 0) && Clean(r.rest, false)
  }

  lemma OneDigitReprints(s: string, continued: bool)
    requires s != "" && IsFinal(s[0])
    ensures ReprintsClean(s, continued)
  {
    hide Printed;
    var r := ReadValue(s);
    PrintedLast(r.number);
    assert s == [s[0]] + s[1..];
    assert (Printed(r.number) + r.rest)[0] == (r.number + 63) as char;
  }

  lemma LongerReprints(s: string, continued: bool)
    requires s != "" && !IsFinal(s[0]) && ReadValue(s).Value? && ReprintsClean(s[1..], true)
    ensures ReprintsClean(s, continued)
  {
    hide Printed;
    var r, tail := ReadValue(s), ReadValue(s[1..]);
    assert s == [s[0]] + s[1..];
    if tail.number > 0 {
      PrintedFirst(r.number, r.rest);
    } else {
      PrintedLast(r.number);
      assert |Printed(r.number) + r.rest| == 1 + |r.rest| < |s|;
    }
  }

  lemma {:induction false} ReprintsIffClean(s: string, continued: bool)
    requires ReadValue(s).Value?
    ensures ReprintsClean(s, continued)
  {
    if IsFinal(s[0]) {
      OneDigitReprints(s, continued);
    } else {
      ReprintsIffClean(s[1..], true);
      LongerReprints(s, continued);
    }
  }

  lemma {:induction false} ReencodesIffClean(s: string, from: Point)
    requires Points(s, from).Some?
    ensures EncodeFrom(Points(s, from).value, from) == s <==> Clean(s, false)
    decreases |s|
  {
    hide ReadValue, Clean, Printed, Zigzag, Unzigzag;
    if s == "" {
      assert Clean(s, false) by { CleanEmpty(); }
    } else {
      var lat := ReadValue(s);
      var lng := ReadValue(lat.rest);
      var point := Moved(from, lat.number, lng.number);
      var others := Points(lng.rest, point).value;
      assert Points(s, from).value[1..] == others;
      UnzigzagRoundTrip(lat.number);
      UnzigzagRoundTrip(lng.number);
      ReprintsIffClean(s, false);
      ReprintsIffClean(lat.rest, false);
      ReencodesIffClean(lng.rest, point);
      var again := EncodeFrom(others, point);
      assert EncodeFrom(Points(s, from).value, from) == Printed(lat.number) + (Printed(lng.number) + again);
      if EncodeFrom(Points(s, from).value, from) == s {
        ReadPrinted(lat.number, Printed(lng.number) + again);
        ReadPrinted(lng.number, again);
      }
    }
  }

  lemma CleanEmpty()
    ensures Clean("", false)
  {
  }

  /**
   * Encoding what was decoded gives back the string exactly when it is complete, stays within '?' to '~' and
   * has no superfluous zero digits: exactly these strings are encodings.
   */
  lemma ReencodesIff(s: string)
    ensures Encode(Decode(s)) == s <==> Complete(s) && Clean(s, false)
    ensures Complete(s) && Clean(s, false) <==> exists points :: s == Encode(points)
  {
    hide Points, EncodeFrom, Clean;
    PointsIffComplete(s, ORIGIN);
    if Complete(s) {
      ReencodesIffClean(s, ORIGIN);
    } else {
      assert Encode([]) == "" by { EncodesNothing(); }
    }
    if points :| s == Encode(points) {
      RoundTrip(points);
    }
  }

  lemma EncodesNothing()
    ensures Encode([]) == ""
  {
  }

  // ----- What the numbers in a string are

  /** Where the next delta counts from: the last point, or (0, 0). */
  function Last(points: seq<Point>, from: Point): Point {
    if points == [] then from else points[|points| - 1]
  }

  lemma {:induction false} EncodeSnoc(points: seq<Point>, next: Point, from: Point)
    ensures EncodeFrom(points + [next], from) == EncodeFrom(points, from) + PrintedPoint(Last(points, from), next)
  {
    hide PrintedPoint;
    if points == [] {
      assert ([next])[1..] == [] && EncodeFrom([], next) == "";
      assert PrintedPoint(from, next) + "" == PrintedPoint(from, next);
      assert [] + [next] == [next];
    } else {
      EncodeSnoc(points[1..], next, points[0]);
      assert (points + [next])[1..] == points[1..] + [next] && (points + [next])[0] == points[0];
      var head, tail := PrintedPoint(from, points[0]), EncodeFrom(points[1..], points[0]);
      var last := PrintedPoint(Last(points, from), next);
      assert Last(points[1..], points[0]) == Last(points, from);
      assert head + (tail + last) == head + tail + last;
    }
  }

  /** Two more numbers are one more point, as far from the last one, or from (0, 0), as they say. */
  lemma DeltasAdd(points: seq<Point>, dlat: int, dlng: int)
    ensures
      var last := Last(points, Point(0, 0));
      Decode(Encode(points) + (Printed(Zigzag(dlat)) + Printed(Zigzag(dlng))))
      == points + [Point(last.lat + dlat, last.lng + dlng)]
  {
    hide EncodeFrom, Decode, Printed, Zigzag;
    var last := Last(points, Point(0, 0));
    var next := Point(last.lat + dlat, last.lng + dlng);
    EncodeSnoc(points, next, ORIGIN);
    RoundTrip(points + [next]);
  }

  lemma PrintedLatitude()
    ensures Printed(Zigzag(3850000)) == "_p~iF"
  {
    assert Printed(7) == "F" && Printed(234) == "iF" && Printed(7519) == "~iF";
    assert Printed(240625) == "p~iF";
  }

  lemma PrintedLongitude()
    ensures Printed(Zigzag(-12020000)) == "~ps|U"
  {
    assert Printed(22) == "U" && Printed(733) == "|U" && Printed(23476) == "s|U";
    assert Printed(751249) == "ps|U";
  }

  /** A published example of the format: the point (38.5, -120.2). */
  lemma KnownPoint()
    ensures Decode("_p~iF~ps|U") == [Point(3850000, -12020000)]
  {
    hide Printed, Zigzag, Decode;
    PrintedLatitude();
    PrintedLongitude();
    EncodesNothing();
    DeltasAdd([], 3850000, -12020000);
    assert "" + ("_p~iF" + "~ps|U") == "_p~iF~ps|U";
  }
}
