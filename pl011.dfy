/**
 * The PL011 UART driver of the hello protection domain, on register values.
 * Registers are 32-bit words (`bv32`): the flag register and the data
 * register are inputs, and what the driver stores to the data register is
 * returned as the sequence of words written, in order.
 */
module Pl011 {
  import opened CTypes

  /** Receive data mask: the data register's low nine bits. */
  const RHR_MASK: bv32 := 0x1FF
  /** Flag register bit 4: receive FIFO empty. */
  const RXFE: bv32 := 0x10
  /** Flag register bit 5: transmit FIFO full. */
  const TXFF: bv32 := 0x20
  /** Value stored to the interrupt clear register: every cause, bits 4 to 10. */
  const ICR_ALL: bv32 := 0x7F0

  const CR: int := 13
  const LF: int := 10
  const BS: int := 8
  const DEL: int := 0x7F
  const NUL: char := '\0'

  /** True when the flag register word says the receive FIFO holds data. */
  predicate RxReady(fr: bv32) {
    fr & RXFE == 0
  }

  /** The switch of uart_get_char: newline reads as carriage return, backspace as DEL. */
  function Normalise(ch: int): (c: int)
    ensures c != LF && c != BS
    ensures ch == LF ==> c == CR
    ensures ch == BS ==> c == DEL
    ensures ch != LF && ch != BS ==> c == ch
  {
    if ch == LF then CR else if ch == BS then DEL else ch
  }

  /**
   * uart_get_char: the character read, given the flag register word `fr`
   * and the data register word `dr`; 0 when the receive FIFO is empty.
   */
  function GetChar(fr: bv32, dr: bv32): (c: int)
    ensures 0 <= c < 512
    ensures c != LF && c != BS
    ensures !RxReady(fr) ==> c == 0
    ensures RxReady(fr) && (dr & RHR_MASK) as int == LF ==> c == CR
    ensures RxReady(fr) && (dr & RHR_MASK) as int == BS ==> c == DEL
    ensures RxReady(fr) && (dr & RHR_MASK) as int !in {LF, BS} ==> c == (dr & RHR_MASK) as int
  {
    var ch := if RxReady(fr) then (dr & RHR_MASK) as int else 0;
    Normalise(ch)
  }

  /** Normalising twice is normalising once: CR and DEL are left alone. */
  lemma NormaliseIdempotent(ch: int)
    ensures Normalise(Normalise(ch)) == Normalise(ch)
  {
  }

  /**
   * For a plain byte received (no error bits above bit 7), the character
   * read is a carriage return exactly when the byte was CR or LF, DEL exactly
   * when it was BS or DEL, and the byte itself otherwise.
   */
  lemma GetCharOfByte(fr: bv32, dr: bv32)
    requires RxReady(fr) && dr < 0x100
    ensures GetChar(fr, dr) == CR <==> dr as int in {CR, LF}
    ensures GetChar(fr, dr) == DEL <==> dr as int in {BS, DEL}
    ensures dr as int !in {LF, BS} ==> GetChar(fr, dr) == dr as int
  {
    assert dr & RHR_MASK == dr;
  }

  /** The character read is 0 exactly when the FIFO is empty or the masked data is 0. */
  lemma GetCharZero(fr: bv32, dr: bv32)
    ensures GetChar(fr, dr) == 0 <==> !RxReady(fr) || dr & RHR_MASK == 0
  {
  }

  /** The word a C `int` becomes when stored to a 32-bit register. */
  function ToWord(ch: int): bv32 {
    (ch % U32_LIMIT) as bv32
  }

  /**
   * uart_put_char: the words stored to the data register. A carriage return
   * is followed by a line feed through one recursive call; the line feed
   * does not recurse again.
   */
  function PutCharWords(ch: int): (w: seq<bv32>)
    decreases if ch == CR then 1 else 0
    ensures 1 <= |w| <= 2
    ensures w[0] == ToWord(ch)
    ensures |w| == 2 <==> ch == CR
    ensures |w| == 2 ==> w[1] == ToWord(LF)
  {
    [ToWord(ch)] + (if ch == CR then PutCharWords(LF) else [])
  }

  /** A carriage return goes out as CR LF; every other character once. */
  lemma PutCharCrLf(ch: int)
    ensures ch == CR ==> PutCharWords(ch) == [13, 10]
    ensures ch != CR && 0 <= ch < 512 ==> PutCharWords(ch) == [ch as bv32]
  {
  }

  /** The length of the C string in `s`: the index of its first NUL. */
  function CStrLen(s: string): (n: nat)
    requires NUL in s
    ensures n < |s| && s[n] == NUL
    ensures forall k :: 0 <= k < n ==> s[k] != NUL
  {
    if s[0] == NUL then 0 else 1 + CStrLen(s[1..])
  }

  /** The words uart_put_char stores for each character of `t`, in order. */
  function StrWords(t: string): seq<bv32> {
    if t == [] then [] else StrWords(t[..|t| - 1]) + PutCharWords(t[|t| - 1] as int)
  }

  /** Without a carriage return in `t`, each character is stored exactly once, in order. */
  lemma {:induction false} StrWordsNoCr(t: string)
    requires forall k :: 0 <= k < |t| ==> t[k] as int != CR
    ensures |StrWords(t)| == |t|
    ensures forall k :: 0 <= k < |t| ==> StrWords(t)[k] == ToWord(t[k] as int)
  {
    if t != [] {
      var p := t[..|t| - 1];
      StrWordsNoCr(p);
      var w := PutCharWords(t[|t| - 1] as int);
      assert w == [ToWord(t[|t| - 1] as int)];
      assert StrWords(t) == StrWords(p) + w;
      forall k | 0 <= k < |t|
        ensures StrWords(t)[k] == ToWord(t[k] as int)
      {
        if k < |p| {
          assert p[k] == t[k];
        }
      }
    }
  }

  /** Each carriage return adds exactly one word, the line feed after it. */
  function CrCount(t: string): nat {
    if t == [] then 0 else CrCount(t[..|t| - 1]) + (if t[|t| - 1] as int == CR then 1 else 0)
  }

  lemma {:induction false} StrWordsLength(t: string)
    ensures |StrWords(t)| == |t| + CrCount(t)
  {
    if t != [] {
      StrWordsLength(t[..|t| - 1]);
    }
  }
}
