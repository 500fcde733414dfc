/**
 * The pairing of the two tables: every response answers the request of the
 * same name, and its key is the request key with the middle byte incremented
 * (dcitools/devices/doremi/requests.py against dcitools/devices/doremi/responses.py).
 */
module Pairing {
  import opened Bytes
  import opened Message
  import Requests
  import Responses

  function Digit(c: char): nat
    requires IsUpperHex(c)
  {
    HexValue(c).value
  }

  /** Two six-digit keys agree on the first and last byte, and the middle byte
      of the second is one more than that of the first. */
  predicate PairedHex(q: string, r: string)
  {
    && ValidKey(q) && ValidKey(r)
    && r[0] == q[0] && r[1] == q[1] && r[4] == q[4] && r[5] == q[5]
    && Digit(r[2]) * 16 + Digit(r[3]) == Digit(q[2]) * 16 + Digit(q[3]) + 1
  }

  lemma Pair0()
    ensures Responses.IndexOfName(Requests.Name(0)) == 0
    ensures PairedHex(Requests.Hex(0), Responses.Hex(0))
  {
  }

  lemma Pair1()
    ensures Responses.IndexOfName(Requests.Name(1)) == 2
    ensures PairedHex(Requests.Hex(1), Responses.Hex(2))
  {
  }

  lemma Pair2()
    ensures Responses.IndexOfName(Requests.Name(2)) == 3
    ensures PairedHex(Requests.Hex(2), Responses.Hex(3))
  {
  }

  lemma Pair3()
    ensures Responses.IndexOfName(Requests.Name(3)) == 5
    ensures PairedHex(Requests.Hex(3), Responses.Hex(5))
  {
  }

  lemma Pair4()
    ensures Responses.IndexOfName(Requests.Name(4)) == 6
    ensures PairedHex(Requests.Hex(4), Responses.Hex(6))
  {
  }

  lemma Pair5()
    ensures Responses.IndexOfName(Requests.Name(5)) == 7
    ensures PairedHex(Requests.Hex(5), Responses.Hex(7))
  {
  }

  lemma Pair6()
    ensures Responses.IndexOfName(Requests.Name(6)) == 8
    ensures PairedHex(Requests.Hex(6), Responses.Hex(8))
  {
  }

  lemma Pair7()
    ensures Responses.IndexOfName(Requests.Name(7)) == 9
    ensures PairedHex(Requests.Hex(7), Responses.Hex(9))
  {
  }

  lemma Pair8()
    ensures Responses.IndexOfName(Requests.Name(8)) == 10
    ensures PairedHex(Requests.Hex(8), Responses.Hex(10))
  {
  }

  lemma Pair9()
    ensures Responses.IndexOfName(Requests.Name(9)) == 11
    ensures PairedHex(Requests.Hex(9), Responses.Hex(11))
  {
  }

  lemma Pair10()
    ensures Responses.IndexOfName(Requests.Name(10)) == 12
    ensures PairedHex(Requests.Hex(10), Responses.Hex(12))
  {
  }

  lemma Pair11()
    ensures Responses.IndexOfName(Requests.Name(11)) == 13
    ensures PairedHex(Requests.Hex(11), Responses.Hex(13))
  {
  }

  lemma Pair12()
    ensures Responses.IndexOfName(Requests.Name(12)) == 14
    ensures PairedHex(Requests.Hex(12), Responses.Hex(14))
  {
  }

  lemma Pair13()
    ensures Responses.IndexOfName(Requests.Name(13)) == 1
    ensures PairedHex(Requests.Hex(13), Responses.Hex(1))
  {
  }

  lemma Pair14()
    ensures Responses.IndexOfName(Requests.Name(14)) == -1
  {
  }

  lemma Pair15()
    ensures Responses.IndexOfName(Requests.Name(15)) == -1
  {
  }

  lemma Pair16()
    ensures Responses.IndexOfName(Requests.Name(16)) == 19
    ensures PairedHex(Requests.Hex(16), Responses.Hex(19))
  {
  }

  lemma Pair17()
    ensures Responses.IndexOfName(Requests.Name(17)) == -1
  {
  }

  lemma Pair18()
    ensures Responses.IndexOfName(Requests.Name(18)) == -1
  {
  }

  lemma Pair19()
    ensures Responses.IndexOfName(Requests.Name(19)) == -1
  {
  }

  lemma Pair20()
    ensures Responses.IndexOfName(Requests.Name(20)) == -1
  {
  }

  lemma Pair21()
    ensures Responses.IndexOfName(Requests.Name(21)) == -1
  {
  }

  lemma Pair22()
    ensures Responses.IndexOfName(Requests.Name(22)) == -1
  {
  }

  lemma Pair23()
    ensures Responses.IndexOfName(Requests.Name(23)) == -1
  {
  }

  lemma Pair24()
    ensures Responses.IndexOfName(Requests.Name(24)) == -1
  {
  }

  lemma Pair25()
    ensures Responses.IndexOfName(Requests.Name(25)) == -1
  {
  }

  lemma Pair26()
    ensures Responses.IndexOfName(Requests.Name(26)) == 4
    ensures PairedHex(Requests.Hex(26), Responses.Hex(4))
  {
  }

  lemma Pair27()
    ensures Responses.IndexOfName(Requests.Name(27)) == 15
    ensures PairedHex(Requests.Hex(27), Responses.Hex(15))
  {
  }

  lemma Pair28()
    ensures Responses.IndexOfName(Requests.Name(28)) == 16
    ensures PairedHex(Requests.Hex(28), Responses.Hex(16))
  {
  }

  lemma Pair29()
    ensures Responses.IndexOfName(Requests.Name(29)) == 20
    ensures PairedHex(Requests.Hex(29), Responses.Hex(20))
  {
  }

  lemma Pair30()
    ensures Responses.IndexOfName(Requests.Name(30)) == 21
    ensures PairedHex(Requests.Hex(30), Responses.Hex(21))
  {
  }

  lemma Pair31()
    ensures Responses.IndexOfName(Requests.Name(31)) == 17
    ensures PairedHex(Requests.Hex(31), Responses.Hex(17))
  {
  }

  lemma Pair32()
    ensures Responses.IndexOfName(Requests.Name(32)) == 18
    ensures PairedHex(Requests.Hex(32), Responses.Hex(18))
  {
  }

  lemma Pair33()
    ensures Responses.IndexOfName(Requests.Name(33)) == -1
  {
  }

  lemma Pair34()
    ensures Responses.IndexOfName(Requests.Name(34)) == -1
  {
  }

  /** For each request, the response of the same name (if any) has the
      paired hex key. */
  lemma PairFacts(i: nat)
    requires i < Requests.COUNT
    ensures var j := Responses.IndexOfName(Requests.Name(i));
      -1 <= j < Responses.COUNT && (j >= 0 ==> PairedHex(Requests.Hex(i), Responses.Hex(j)))
  {
    if i < 12 { PairFacts0(i); } else if i < 24 { PairFacts1(i); } else { PairFacts2(i); }
  }

  lemma PairFacts0(i: nat)
    requires 0 <= i < 12
    ensures var j := Responses.IndexOfName(Requests.Name(i));
      -1 <= j < Responses.COUNT && (j >= 0 ==> PairedHex(Requests.Hex(i), Responses.Hex(j)))
  {
    if i == 0 { Pair0(); }
    else if i == 1 { Pair1(); }
    else if i == 2 { Pair2(); }
    else if i == 3 { Pair3(); }
    else if i == 4 { Pair4(); }
    else if i == 5 { Pair5(); }
    else if i == 6 { Pair6(); }
    else if i == 7 { Pair7(); }
    else if i == 8 { Pair8(); }
    else if i == 9 { Pair9(); }
    else if i == 10 { Pair10(); }
    else if i == 11 { Pair11(); }
  }

  lemma PairFacts1(i: nat)
    requires 12 <= i < 24
    ensures var j := Responses.IndexOfName(Requests.Name(i));
      -1 <= j < Responses.COUNT && (j >= 0 ==> PairedHex(Requests.Hex(i), Responses.Hex(j)))
  {
    if i == 12 { Pair12(); }
    else if i == 13 { Pair13(); }
    else if i == 14 { Pair14(); }
    else if i == 15 { Pair15(); }
    else if i == 16 { Pair16(); }
    else if i == 17 { Pair17(); }
    else if i == 18 { Pair18(); }
    else if i == 19 { Pair19(); }
    else if i == 20 { Pair20(); }
    else if i == 21 { Pair21(); }
    else if i == 22 { Pair22(); }
    else if i == 23 { Pair23(); }
  }

  lemma PairFacts2(i: nat)
    requires 24 <= i < 35
    ensures var j := Responses.IndexOfName(Requests.Name(i));
      -1 <= j < Responses.COUNT && (j >= 0 ==> PairedHex(Requests.Hex(i), Responses.Hex(j)))
  {
    if i == 24 { Pair24(); }
    else if i == 25 { Pair25(); }
    else if i == 26 { Pair26(); }
    else if i == 27 { Pair27(); }
    else if i == 28 { Pair28(); }
    else if i == 29 { Pair29(); }
    else if i == 30 { Pair30(); }
    else if i == 31 { Pair31(); }
    else if i == 32 { Pair32(); }
    else if i == 33 { Pair33(); }
    else if i == 34 { Pair34(); }
  }


  lemma Answers0()
    ensures Requests.IndexOfName(Responses.Name(0)) == 0
  {
  }

  lemma Answers1()
    ensures Requests.IndexOfName(Responses.Name(1)) == 13
  {
  }

  lemma Answers2()
    ensures Requests.IndexOfName(Responses.Name(2)) == 1
  {
  }

  lemma Answers3()
    ensures Requests.IndexOfName(Responses.Name(3)) == 2
  {
  }

  lemma Answers4()
    ensures Requests.IndexOfName(Responses.Name(4)) == 26
  {
  }

  lemma Answers5()
    ensures Requests.IndexOfName(Responses.Name(5)) == 3
  {
  }

  lemma Answers6()
    ensures Requests.IndexOfName(Responses.Name(6)) == 4
  {
  }

  lemma Answers7()
    ensures Requests.IndexOfName(Responses.Name(7)) == 5
  {
  }

  lemma Answers8()
    ensures Requests.IndexOfName(Responses.Name(8)) == 6
  {
  }

  lemma Answers9()
    ensures Requests.IndexOfName(Responses.Name(9)) == 7
  {
  }

  lemma Answers10()
    ensures Requests.IndexOfName(Responses.Name(10)) == 8
  {
  }

  lemma Answers11()
    ensures Requests.IndexOfName(Responses.Name(11)) == 9
  {
  }

  lemma Answers12()
    ensures Requests.IndexOfName(Responses.Name(12)) == 10
  {
  }

  lemma Answers13()
    ensures Requests.IndexOfName(Responses.Name(13)) == 11
  {
  }

  lemma Answers14()
    ensures Requests.IndexOfName(Responses.Name(14)) == 12
  {
  }

  lemma Answers15()
    ensures Requests.IndexOfName(Responses.Name(15)) == 27
  {
  }

  lemma Answers16()
    ensures Requests.IndexOfName(Responses.Name(16)) == 28
  {
  }

  lemma Answers17()
    ensures Requests.IndexOfName(Responses.Name(17)) == 31
  {
  }

  lemma Answers18()
    ensures Requests.IndexOfName(Responses.Name(18)) == 32
  {
  }

  lemma Answers19()
    ensures Requests.IndexOfName(Responses.Name(19)) == 16
  {
  }

  lemma Answers20()
    ensures Requests.IndexOfName(Responses.Name(20)) == 29
  {
  }

  lemma Answers21()
    ensures Requests.IndexOfName(Responses.Name(21)) == 30
  {
  }

  /** Every response answers a declared request: its name is a request name. */
  lemma ResponseNameFacts(j: nat)
    requires j < Responses.COUNT
    ensures 0 <= Requests.IndexOfName(Responses.Name(j)) < Requests.COUNT
  {
    if j == 0 { Answers0(); }
    else if j == 1 { Answers1(); }
    else if j == 2 { Answers2(); }
    else if j == 3 { Answers3(); }
    else if j == 4 { Answers4(); }
    else if j == 5 { Answers5(); }
    else if j == 6 { Answers6(); }
    else if j == 7 { Answers7(); }
    else if j == 8 { Answers8(); }
    else if j == 9 { Answers9(); }
    else if j == 10 { Answers10(); }
    else if j == 11 { Answers11(); }
    else if j == 12 { Answers12(); }
    else if j == 13 { Answers13(); }
    else if j == 14 { Answers14(); }
    else if j == 15 { Answers15(); }
    else if j == 16 { Answers16(); }
    else if j == 17 { Answers17(); }
    else if j == 18 { Answers18(); }
    else if j == 19 { Answers19(); }
    else if j == 20 { Answers20(); }
    else if j == 21 { Answers21(); }
  }

  /** Two 3-byte keys agree on the first and last byte, and the middle byte of
      the second is one more than that of the first. */
  predicate PairedKeys(q: seq<byte>, r: seq<byte>)
  {
    |q| == 3 && |r| == 3 && r[0] == q[0] && r[1] as int == q[1] as int + 1 && r[2] == q[2]
  }

  /** The byte k of a table key, read from its hex text. */
  lemma KeyByte(key: seq<byte>, hex: string, k: nat)
    requires |key| == 3 && ToHex(key) == hex && ValidKey(hex) && k < 3
    ensures key[k] == Digit(hex[2 * k]) * 16 + Digit(hex[2 * k + 1])
  {
    HexRoundTrip(key);
    HexPairsAt(hex, k);
  }

  /** Whenever a request and a response have the same name, the response key
      is the request key with its middle byte incremented by one. */
  lemma KeyPairing(i: nat, j: nat)
    requires i < Requests.COUNT && j < Responses.COUNT
    requires Requests.Name(i) == Responses.Name(j)
    ensures PairedKeys(Requests.Definition(i).key, Responses.Definition(j).key)
  {
    Responses.EntryFacts(j);
    PairFacts(i);
    PairedHexKeys(Requests.Definition(i).key, Requests.Hex(i), Responses.Definition(j).key, Responses.Hex(j));
  }

  /** Keys whose hex texts are paired are paired as bytes. */
  lemma PairedHexKeys(q: seq<byte>, qh: string, r: seq<byte>, rh: string)
    requires |q| == 3 && ToHex(q) == qh && |r| == 3 && ToHex(r) == rh
    requires PairedHex(qh, rh)
    ensures PairedKeys(q, r)
  {
    KeyByte(q, qh, 0);
    KeyByte(q, qh, 1);
    KeyByte(q, qh, 2);
    KeyByte(r, rh, 0);
    KeyByte(r, rh, 1);
    KeyByte(r, rh, 2);
  }
}
