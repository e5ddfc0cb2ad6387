/**
 * MAC address normalisation of the device identifier: delete every ':', '-'
 * and '.', upper-case what is left, and rejoin it in two-character groups
 * separated by ':'. Upper-casing is modelled on ASCII letters only.
 */
module MacAddress {

  predicate IsSeparator(c: char) {
    c == ':' || c == '-' || c == '.'
  }

  predicate IsLowerAscii(c: char) {
    'a' <= c <= 'z'
  }

  /** The input with every separator deleted (`re.sub(r'[:\-\.]', '', s)`). */
  function StripSeparators(s: string): string
    decreases |s|
  {
    if s == [] then []
    else (if IsSeparator(s[0]) then [] else [s[0]]) + StripSeparators(s[1..])
  }

  function UpperChar(c: char): (r: char)
    ensures !IsLowerAscii(r)
    ensures IsSeparator(r) <==> IsSeparator(c)
  {
    if IsLowerAscii(c) then (c as int - 32) as char else c
  }

  function Upper(s: string): (r: string)
    ensures |r| == |s| && forall i :: 0 <= i < |s| ==> r[i] == UpperChar(s[i])
  {
    seq(|s|, i requires 0 <= i < |s| => UpperChar(s[i]))
  }

  function Min(a: int, b: int): int {
    if a <= b then a else b
  }

  /** The two-character groups of `mac`, front to back; the last may be shorter. */
  function Chunks(mac: string): seq<string>
    decreases |mac|
  {
    if |mac| <= 2 then (if mac == [] then [] else [mac])
    else [mac[..2]] + Chunks(mac[2..])
  }

  /** The groups are the source's comprehension `[mac[i:i+2] for i in range(0, len(mac), 2)]`. */
  lemma {:induction false} ChunksComprehension(mac: string)
    ensures |Chunks(mac)| == (|mac| + 1) / 2
    ensures forall k :: 0 <= k < |Chunks(mac)| ==> Chunks(mac)[k] == mac[2 * k .. Min(2 * k + 2, |mac|)]
    decreases |mac|
  {
    if |mac| > 2 {
      var rest := mac[2..];
      ChunksComprehension(rest);
      forall k | 1 <= k < |Chunks(mac)| ensures Chunks(mac)[k] == mac[2 * k .. Min(2 * k + 2, |mac|)] {
        var lo, hi := 2 * k, Min(2 * k + 2, |mac|);
        assert 2 * (k - 1) == lo - 2 && Min(2 * (k - 1) + 2, |rest|) == hi - 2;
        assert Chunks(mac)[k] == Chunks(rest)[k - 1] == rest[lo - 2 .. hi - 2];
        assert rest[lo - 2 .. hi - 2] == mac[lo .. hi];
      }
    }
  }

  /** `':'.join(parts)`. */
  function JoinColon(parts: seq<string>): string
    decreases |parts|
  {
    if parts == [] then []
    else if |parts| == 1 then parts[0]
    else parts[0] + ":" + JoinColon(parts[1..])
  }

  /** The normal form of a MAC address string. */
  function NormalizeMacAddress(mac: string): string {
    JoinColon(Chunks(Upper(StripSeparators(mac))))
  }

  predicate NoSeparators(s: string) {
    forall i :: 0 <= i < |s| ==> !IsSeparator(s[i])
  }

  lemma {:induction false} StripSeparatorsAppend(a: string, b: string)
    ensures StripSeparators(a + b) == StripSeparators(a) + StripSeparators(b)
    decreases |a|
  {
    if a == [] {
      assert a + b == b;
    } else {
      assert (a + b)[0] == a[0];
      assert (a + b)[1..] == a[1..] + b;
      StripSeparatorsAppend(a[1..], b);
    }
  }

  /** Stripping keeps exactly the non-separator characters. */
  lemma {:induction false} StripSeparatorsChars(s: string)
    ensures NoSeparators(StripSeparators(s))
    ensures forall c :: c in s && !IsSeparator(c) ==> c in StripSeparators(s)
    ensures NoSeparators(s) ==> StripSeparators(s) == s
    decreases |s|
  {
    if s != [] {
      StripSeparatorsChars(s[1..]);
      assert s == [s[0]] + s[1..];
    }
  }

  /** Deleting the colons of the grouped form gives the separator-free string back. */
  lemma {:induction false} GroupedContent(x: string)
    requires NoSeparators(x)
    ensures StripSeparators(JoinColon(Chunks(x))) == x
    decreases |x|
  {
    if |x| <= 2 {
      StripSeparatorsChars(x);
    } else {
      var rest := JoinColon(Chunks(x[2..]));
      assert Chunks(x)[1..] == Chunks(x[2..]);
      assert JoinColon(Chunks(x)) == (x[..2] + ":") + rest;
      GroupedContent(x[2..]);
      StripSeparatorsAppend(x[..2] + ":", rest);
      StripSeparatorsAppend(x[..2], ":");
      StripSeparatorsChars(x[..2]);
      assert x == x[..2] + x[2..];
    }
  }

  /** In the grouped form of a separator-free string, ':' stands at exactly every third position. */
  lemma {:induction false} GroupedColons(x: string)
    requires NoSeparators(x)
    ensures forall i :: 0 <= i < |JoinColon(Chunks(x))| ==> (JoinColon(Chunks(x))[i] == ':' <==> i % 3 == 2)
    ensures forall i :: 0 <= i < |JoinColon(Chunks(x))| && JoinColon(Chunks(x))[i] != ':' ==>
              JoinColon(Chunks(x))[i] in x
    decreases |x|
  {
    var r := JoinColon(Chunks(x));
    if |x| <= 2 {
      assert r == x;
    } else {
      var rest := JoinColon(Chunks(x[2..]));
      assert Chunks(x)[1..] == Chunks(x[2..]);
      assert r == x[..2] + ":" + rest;
      GroupedColons(x[2..]);
      forall i | 0 <= i < |r| ensures (r[i] == ':' <==> i % 3 == 2) && (r[i] != ':' ==> r[i] in x) {
        if i >= 3 {
          assert r[i] == rest[i - 3];
          assert rest[i - 3] != ':' ==> rest[i - 3] in x[2..];
        } else if i < 2 {
          assert r[i] == x[i];
        }
      }
    }
  }

  /**
   * The normal form: colons at every third position and nowhere else, no '-'
   * or '.', no lower-case letter, and the non-separator characters of the
   * input, upper-cased and in order.
   */
  lemma NormalizeMacAddressShape(mac: string)
    ensures var r := NormalizeMacAddress(mac);
      && StripSeparators(r) == Upper(StripSeparators(mac))
      && (forall i :: 0 <= i < |r| ==> (r[i] == ':' <==> i % 3 == 2))
      && (forall i :: 0 <= i < |r| ==> r[i] != '-' && r[i] != '.' && !IsLowerAscii(r[i]))
  {
    var x := Upper(StripSeparators(mac));
    var r := NormalizeMacAddress(mac);
    StripSeparatorsChars(mac);
    assert NoSeparators(x);
    GroupedContent(x);
    GroupedColons(x);
    forall i | 0 <= i < |r| ensures r[i] != '-' && r[i] != '.' && !IsLowerAscii(r[i]) {
      if r[i] != ':' {
        assert r[i] in x;
      }
    }
  }

  /** Every group but the last has two characters; the last has one or two. */
  lemma {:induction false} ChunkLengths(mac: string)
    ensures var cs := Chunks(mac);
      && (forall k :: 0 <= k < |cs| - 1 ==> |cs[k]| == 2)
      && (cs != [] ==> 1 <= |cs[|cs| - 1]| <= 2)
    decreases |mac|
  {
    if |mac| > 2 {
      ChunkLengths(mac[2..]);
    }
  }

  /** Normalising a normal form changes nothing. */
  lemma NormalizeIdempotent(mac: string)
    ensures NormalizeMacAddress(NormalizeMacAddress(mac)) == NormalizeMacAddress(mac)
  {
    var x := StripSeparators(mac);
    NormalizeMacAddressShape(mac);
    assert Upper(Upper(x)) == Upper(x);
  }

  /**
   * Two inputs have the same normal form exactly when they differ only in
   * separators and letter case.
   */
  lemma SeparatorStyleIrrelevant(a: string, b: string)
    ensures NormalizeMacAddress(a) == NormalizeMacAddress(b) <==> Upper(StripSeparators(a)) == Upper(StripSeparators(b))
  {
    NormalizeMacAddressShape(a);
    NormalizeMacAddressShape(b);
  }

  /** The groups of an address written with separator `c` between them. */
  function JoinWith(groups: seq<string>, c: char): string
    decreases |groups|
  {
    if groups == [] then []
    else if |groups| == 1 then groups[0]
    else groups[0] + [c] + JoinWith(groups[1..], c)
  }

  /** The groups of an address written with no separator. */
  function Concat(groups: seq<string>): string
    decreases |groups|
  {
    if groups == [] then [] else groups[0] + Concat(groups[1..])
  }

  lemma {:induction false} StripJoinWith(groups: seq<string>, c: char)
    requires IsSeparator(c)
    ensures StripSeparators(JoinWith(groups, c)) == StripSeparators(Concat(groups))
    decreases |groups|
  {
    if |groups| == 1 {
      assert groups[1..] == [];
      assert Concat(groups) == groups[0] + [] == groups[0];
    } else if |groups| > 1 {
      var rest := groups[1..];
      StripJoinWith(rest, c);
      StripSeparatorsAppend(groups[0] + [c], JoinWith(rest, c));
      StripSeparatorsAppend(groups[0], [c]);
      StripSeparatorsAppend(groups[0], Concat(rest));
      assert StripSeparators([c]) == [];
      assert StripSeparators(JoinWith(groups, c)) == StripSeparators(groups[0]) + StripSeparators(JoinWith(rest, c));
    }
  }

  /**
   * Whatever the groups, writing them with ':', '-', '.' or no separator at
   * all gives the same normal form ("00:11:22:33:44:55", "00-11-22-33-44-55",
   * "00.11.22.33.44.55" and "001122334455" among them).
   */
  lemma SeparatorChoiceIrrelevant(groups: seq<string>, c: char)
    requires IsSeparator(c)
    ensures NormalizeMacAddress(JoinWith(groups, c)) == NormalizeMacAddress(Concat(groups))
  {
    StripJoinWith(groups, c);
  }

  /** Inserting one separator anywhere does not change the normal form. */
  lemma SeparatorInsertionIrrelevant(a: string, c: char, b: string)
    requires IsSeparator(c)
    ensures NormalizeMacAddress(a + [c] + b) == NormalizeMacAddress(a + b)
  {
    StripSeparatorsAppend(a + [c], b);
    StripSeparatorsAppend(a, [c]);
    StripSeparatorsAppend(a, b);
    assert StripSeparators([c]) == [];
    assert StripSeparators(a + [c] + b) == StripSeparators(a + b);
  }
}
