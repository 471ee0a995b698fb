/**
 * crypto_aes_expand_key, aes_encrypt and aes_decrypt, in place on their arrays.
 */
module AesCode {
  import opened Bits32
  import opened AesColumns
  import opened AesCipher

  // Key lengths in bytes
  type KeyLen = n: nat | n == 16 || n == 24 || n == 32 witness 16

  function Nk(keyLen: KeyLen): nat { if keyLen == 16 then 4 else if keyLen == 24 then 6 else 8 }

  function Nr(keyLen: KeyLen): nat { if keyLen == 16 then 10 else if keyLen == 24 then 12 else 14 }

  // Position of a word in its group of nk, and number of its group
  function Within(i: nat, keyLen: KeyLen): nat { if keyLen == 16 then i % 4 else if keyLen == 24 then i % 6 else i % 8 }

  function Group(i: nat, keyLen: KeyLen): nat { if keyLen == 16 then i / 4 else if keyLen == 24 then i / 6 else i / 8 }

  // SubWord, and ls_box by the tables
  function SubWord(b: Box, x: bv32): bv32 { SubShiftCol(b, x, x, x, x) }

  function LsBox(b: Box, x: bv32): bv32 { Frl(b, x, x, x, x, 0) }

  lemma LsBoxIs(b: Box, x: bv32)
    ensures LsBox(b, x) == SubWord(b, x)
  {
    hide X, Frl, SubShiftCol;
    TablesAre(b, x, x, x, x, 0);
    XZero(SubWord(b, x));
  }

  // What section 5.2 of FIPS 197 adds to the word nk places back
  function Fed(b: Box, rcon: nat -> bv32, prev: bv32, i: nat, keyLen: KeyLen): bv32
    requires Nk(keyLen) <= i
  {
    if Within(i, keyLen) == 0 then X(SubWord(b, Ror8(prev)), rcon(Group(i, keyLen) - 1))
    else if Nk(keyLen) > 6 && Within(i, keyLen) == 4 then SubWord(b, prev)
    else prev
  }

  // The first n words are those of the published key expansion.
  predicate Expanded(b: Box, rcon: nat -> bv32, key: seq<bv32>, w: seq<bv32>, n: nat, keyLen: KeyLen) {
    var nk := Nk(keyLen);
    nk <= n <= |w| && nk <= |key| && (forall i :: 0 <= i < nk ==> w[i] == key[i]) &&
    forall i :: nk <= i < n ==> w[i] == X(w[i - nk], Fed(b, rcon, w[i - 1], i, keyLen))
  }

  lemma ExpandedGrows(b: Box, rcon: nat -> bv32, key: seq<bv32>, w: seq<bv32>, w': seq<bv32>, n: nat, keyLen: KeyLen)
    requires Expanded(b, rcon, key, w, n, keyLen) && n < |w'| == |w| && w'[..n] == w[..n]
    requires w'[n] == X(w[n - Nk(keyLen)], Fed(b, rcon, w[n - 1], n, keyLen))
    ensures Expanded(b, rcon, key, w', n + 1, keyLen)
  {
    hide Fed, X;
    assert forall i :: 0 <= i < n ==> w'[i] == w'[..n][i] == w[i];
  }

  lemma Places4(n: nat, j: nat)
    requires n % 4 == 0 && j <= 4
    ensures if j < 4 then (n + j) % 4 == j && (n + j) / 4 == n / 4 else (n + j) % 4 == 0 && (n + j) / 4 == n / 4 + 1
  {
  }

  lemma Places6(n: nat, j: nat)
    requires n % 6 == 0 && j <= 6
    ensures if j < 6 then (n + j) % 6 == j && (n + j) / 6 == n / 6 else (n + j) % 6 == 0 && (n + j) / 6 == n / 6 + 1
  {
  }

  lemma Places8(n: nat, j: nat)
    requires n % 8 == 0 && j <= 8
    ensures if j < 8 then (n + j) % 8 == j && (n + j) / 8 == n / 8 else (n + j) % 8 == 0 && (n + j) / 8 == n / 8 + 1
  {
  }

  lemma Places(n: nat, j: nat, keyLen: KeyLen)
    requires Within(n, keyLen) == 0 && j <= Nk(keyLen)
    ensures if j < Nk(keyLen) then Within(n + j, keyLen) == j && Group(n + j, keyLen) == Group(n, keyLen)
            else Within(n + j, keyLen) == 0 && Group(n + j, keyLen) == Group(n, keyLen) + 1
  {
    if keyLen == 16 { Places4(n, j); } else if keyLen == 24 { Places6(n, j); } else { Places8(n, j); }
  }

  // One word of a group: t holds what is fed into its first word, and the previous word later.
  method ExpandWord(b: Box, rcon: nat -> bv32, keyLen: KeyLen, enc: array<bv32>, n: nat, j: nat, t0: bv32, ghost key: seq<bv32>)
    returns (t: bv32)
    requires Nk(keyLen) <= n < enc.Length && Expanded(b, rcon, key, enc[..], n, keyLen) && Within(n, keyLen) == j
    requires t0 == if j == 0 then X(SubWord(b, Ror8(enc[n - 1])), rcon(Group(n, keyLen) - 1)) else enc[n - 1]
    modifies enc
    ensures Expanded(b, rcon, key, enc[..], n + 1, keyLen) && t == enc[n]
  {
    hide X, Expanded, SubWord, LsBox, Ror8, Within, Group;
    ghost var w := enc[..];
    var nk := Nk(keyLen);
    if nk == 8 && j == 4 {
      LsBoxIs(b, t0);
      t := X(enc[n - nk], LsBox(b, t0));
    } else {
      XComm(t0, enc[n - nk]);
      t := X(t0, enc[n - nk]);
    }
    enc[n] := t;
    ExpandedGrows(b, rcon, key, w, enc[..], n, keyLen);
  }

  // loop4, loop6 and loop8: the group of words that begins at n
  method ExpandGroup(b: Box, rcon: nat -> bv32, keyLen: KeyLen, enc: array<bv32>, i: nat, n: nat, t0: bv32, ghost key: seq<bv32>)
    returns (t: bv32)
    requires Nk(keyLen) <= n && n + Nk(keyLen) <= enc.Length && Expanded(b, rcon, key, enc[..], n, keyLen) && t0 == enc[n - 1]
    requires Within(n, keyLen) == 0 && Group(n, keyLen) == i + 1
    modifies enc
    ensures Expanded(b, rcon, key, enc[..], n + Nk(keyLen), keyLen) && t == enc[n + Nk(keyLen) - 1]
  {
    hide X, Expanded, SubWord, LsBox, Ror8, Within, Group;
    t := Ror8(t0);
    LsBoxIs(b, t);
    t := X(LsBox(b, t), rcon(i));
    var j := 0;
    while j < Nk(keyLen)
      invariant 0 <= j <= Nk(keyLen) && Expanded(b, rcon, key, enc[..], n + j, keyLen)
      invariant t == if j == 0 then X(SubWord(b, Ror8(enc[n - 1])), rcon(i)) else enc[n + j - 1]
    {
      Places(n, j, keyLen);
      t := ExpandWord(b, rcon, keyLen, enc, n + j, j, t, key);
      j := j + 1;
    }
  }

  // How often the loop for each key size runs
  function Groups(keyLen: KeyLen): nat { if keyLen == 16 then 10 else if keyLen == 24 then 8 else 7 }

  // The encryption half of crypto_aes_expand_key. The last group of a 256-bit key reaches word 63,
  // past the 60 words the rounds use.
  method ExpandEnc(b: Box, rcon: nat -> bv32, keyLen: KeyLen, enc: array<bv32>, key: seq<bv32>)
    requires enc.Length >= 64 && |key| == Nk(keyLen)
    modifies enc
    ensures Expanded(b, rcon, key, enc[..], 4 * Nr(keyLen) + 4, keyLen)
  {
    hide X, SubWord, LsBox, Ror8, Fed, Expanded;
    var nk := Nk(keyLen);
    forall k | 0 <= k < nk { enc[k] := key[k]; }
    var t := enc[nk - 1];
    FirstWords(b, rcon, key, enc[..], keyLen);
    var i, n := 0, nk;
    while i < Groups(keyLen)
      invariant i <= Groups(keyLen) && n == nk + i * nk && nk <= n
      invariant Expanded(b, rcon, key, enc[..], n, keyLen) && t == enc[n - 1]
    {
      InGroup(n, i, keyLen);
      t := ExpandGroup(b, rcon, keyLen, enc, i, n, t, key);
      i, n := i + 1, n + nk;
    }
    FewerWords(b, rcon, key, enc[..], n, 4 * Nr(keyLen) + 4, keyLen);
  }

  lemma FirstWords(b: Box, rcon: nat -> bv32, key: seq<bv32>, w: seq<bv32>, keyLen: KeyLen)
    requires |key| == Nk(keyLen) <= |w| && forall i :: 0 <= i < Nk(keyLen) ==> w[i] == key[i]
    ensures Expanded(b, rcon, key, w, Nk(keyLen), keyLen)
  {
  }

  lemma FewerWords(b: Box, rcon: nat -> bv32, key: seq<bv32>, w: seq<bv32>, n: nat, n': nat, keyLen: KeyLen)
    requires Expanded(b, rcon, key, w, n, keyLen) && Nk(keyLen) <= n' <= n
    ensures Expanded(b, rcon, key, w, n', keyLen)
  {
  }

  lemma InGroup(n: nat, i: nat, keyLen: KeyLen)
    requires n == Nk(keyLen) + i * Nk(keyLen) && i < Groups(keyLen)
    ensures Within(n, keyLen) == 0 && Group(n, keyLen) == i + 1 && n + Nk(keyLen) <= 64
  {
  }

  lemma MirrorApart(i: nat, j: nat, nr: nat)
    requires 4 <= i < 4 * nr && 4 <= j < 4 * nr
    ensures 4 <= Mirror(i, nr) < 4 * nr && (Mirror(i, nr) == Mirror(j, nr) ==> i == j)
  {
  }

  // crypto_aes_expand_key: both schedules, for key lengths the code accepts
  method ExpandKey(b: Box, rcon: nat -> bv32, keyLen: nat, enc: array<bv32>, dec: array<bv32>, key: seq<bv32>) returns (err: int)
    requires enc.Length >= 64 && dec.Length >= 60 && enc != dec
    requires keyLen == 16 || keyLen == 24 || keyLen == 32 ==> |key| == Nk(keyLen)
    modifies enc, dec
    ensures (err == 0) == (keyLen == 16 || keyLen == 24 || keyLen == 32)
    ensures err == 0 ==> Expanded(b, rcon, key, enc[..], 4 * Nr(keyLen) + 4, keyLen) && Reversed(enc[..], dec[..], Nr(keyLen))
    ensures err != 0 ==> enc[..] == old(enc[..]) && dec[..] == old(dec[..])
  {
    hide IMix, Expanded;
    if keyLen != 16 && keyLen != 24 && keyLen != 32 { return -22; }
    ExpandEnc(b, rcon, keyLen, enc, key);
    ReverseKey(keyLen, enc, dec);
    return 0;
  }

  // The decryption half of crypto_aes_expand_key
  method ReverseKey(keyLen: KeyLen, enc: array<bv32>, dec: array<bv32>)
    requires enc.Length >= 64 && dec.Length >= 60 && enc != dec
    modifies dec
    ensures Reversed(enc[..], dec[..], Nr(keyLen))
  {
    hide IMix, Mirror, Reversed;
    ghost var nr := Nr(keyLen);
    var last := keyLen + 24;
    dec[last], dec[last + 1], dec[last + 2], dec[last + 3] := enc[0], enc[1], enc[2], enc[3];
    dec[0], dec[1], dec[2], dec[3] := enc[last], enc[last + 1], enc[last + 2], enc[last + 3];
    ghost var d := dec[..];
    assert d[last..last + 4] == [enc[0], enc[1], enc[2], enc[3]];
    assert d[..4] == [enc[last], enc[last + 1], enc[last + 2], enc[last + 3]];
    MixMiddle(keyLen, enc, dec);
    ReversedFrom(enc[..], d, dec[..], keyLen);
  }

  lemma ReversedFrom(w: seq<bv32>, d: seq<bv32>, dw: seq<bv32>, keyLen: KeyLen)
    requires var last := keyLen + 24;
             last == 4 * Nr(keyLen) && last + 4 <= |w| && last + 4 <= |d| == |dw| &&
             d[last..last + 4] == [w[0], w[1], w[2], w[3]] && d[..4] == [w[last], w[last + 1], w[last + 2], w[last + 3]]
    requires forall j :: 0 <= j < 4 || 4 * Nr(keyLen) <= j < |d| ==> dw[j] == d[j]
    requires forall i :: 4 <= i < 4 * Nr(keyLen) ==> dw[Mirror(i, Nr(keyLen))] == IMix(w[i])
    ensures Reversed(w, dw, Nr(keyLen))
  {
    hide IMix, Mirror;
    var last := keyLen + 24;
    forall n | 0 <= n < 4 ensures dw[n] == w[last + n] && dw[last + n] == w[n] {
      assert d[n] == d[..4][n] && d[last + n] == d[last..last + 4][n];
    }
  }

  // The loop that mixes the columns of the inner round keys
  method MixMiddle(keyLen: KeyLen, enc: array<bv32>, dec: array<bv32>)
    requires enc.Length >= 64 && dec.Length >= 60 && enc != dec
    modifies dec
    ensures forall i :: 4 <= i < 4 * Nr(keyLen) ==> dec[Mirror(i, Nr(keyLen))] == IMix(enc[i])
    ensures forall j :: 0 <= j < 4 || 4 * Nr(keyLen) <= j < dec.Length ==> dec[j] == old(dec[j])
  {
    hide IMix, Mirror;
    ghost var nr := Nr(keyLen);
    var i := 4;
    while i < keyLen + 24
      invariant 4 <= i <= keyLen + 24 == 4 * nr
      invariant forall j :: 0 <= j < 4 || 4 * nr <= j < dec.Length ==> dec[j] == old(dec[j])
      invariant forall k :: 4 <= k < i ==> dec[Mirror(k, nr)] == IMix(enc[k])
    {
      var j := keyLen + 24 - (i - i % 4) + i % 4;
      MirrorIs(i, nr);
      forall k | 4 <= k <= i ensures 4 <= Mirror(k, nr) < 4 * nr && (Mirror(k, nr) == j ==> k == i) { MirrorApart(k, i, nr); }
      dec[j] := IMix(enc[i]);
      i := i + 1;
    }
  }

  // ---- aes_encrypt and aes_decrypt ---------------------------------------------------------------

  // The state an array of four words holds
  ghost function Io(a: array<bv32>): Quad
    requires a.Length == 4
    reads a
  {
    Quad(a[0], a[1], a[2], a[3])
  }

  // f_nround
  method FNround(b: Box, bo: array<bv32>, bi: array<bv32>, k: array<bv32>, kp: nat)
    requires bo.Length == bi.Length == 4 && kp + 4 <= k.Length && bo != bi && bo != k
    modifies bo
    ensures Io(bo) == AddKey(MixColumns(SubShift(b, Io(bi))), k[..], kp)
  {
    hide X, Frn, MixColumn, SubShiftCol;
    TablesAre(b, bi[0], bi[1], bi[2], bi[3], k[kp]);
    TablesAre(b, bi[1], bi[2], bi[3], bi[0], k[kp + 1]);
    TablesAre(b, bi[2], bi[3], bi[0], bi[1], k[kp + 2]);
    TablesAre(b, bi[3], bi[0], bi[1], bi[2], k[kp + 3]);
    bo[0] := Frn(b, bi[0], bi[1], bi[2], bi[3], k[kp]);
    bo[1] := Frn(b, bi[1], bi[2], bi[3], bi[0], k[kp + 1]);
    bo[2] := Frn(b, bi[2], bi[3], bi[0], bi[1], k[kp + 2]);
    bo[3] := Frn(b, bi[3], bi[0], bi[1], bi[2], k[kp + 3]);
  }

  // f_lround
  method FLround(b: Box, bo: array<bv32>, bi: array<bv32>, k: array<bv32>, kp: nat)
    requires bo.Length == bi.Length == 4 && kp + 4 <= k.Length && bo != bi && bo != k
    modifies bo
    ensures Io(bo) == AddKey(SubShift(b, Io(bi)), k[..], kp)
  {
    hide X, Frl, SubShiftCol;
    TablesAre(b, bi[0], bi[1], bi[2], bi[3], k[kp]);
    TablesAre(b, bi[1], bi[2], bi[3], bi[0], k[kp + 1]);
    TablesAre(b, bi[2], bi[3], bi[0], bi[1], k[kp + 2]);
    TablesAre(b, bi[3], bi[0], bi[1], bi[2], k[kp + 3]);
    bo[0] := Frl(b, bi[0], bi[1], bi[2], bi[3], k[kp]);
    bo[1] := Frl(b, bi[1], bi[2], bi[3], bi[0], k[kp + 1]);
    bo[2] := Frl(b, bi[2], bi[3], bi[0], bi[1], k[kp + 2]);
    bo[3] := Frl(b, bi[3], bi[0], bi[1], bi[2], k[kp + 3]);
  }

  // i_nround
  method INround(b: Box, bo: array<bv32>, bi: array<bv32>, k: array<bv32>, kp: nat)
    requires bo.Length == bi.Length == 4 && kp + 4 <= k.Length && bo != bi && bo != k
    modifies bo
    ensures Io(bo) == AddKey(InvMixColumns(InvSubShift(b, Io(bi))), k[..], kp)
  {
    hide X, Irn, InvMixColumn, InvSubShiftCol;
    InverseTablesAre(b, bi[0], bi[3], bi[2], bi[1], k[kp]);
    InverseTablesAre(b, bi[1], bi[0], bi[3], bi[2], k[kp + 1]);
    InverseTablesAre(b, bi[2], bi[1], bi[0], bi[3], k[kp + 2]);
    InverseTablesAre(b, bi[3], bi[2], bi[1], bi[0], k[kp + 3]);
    bo[0] := Irn(b, bi[0], bi[3], bi[2], bi[1], k[kp]);
    bo[1] := Irn(b, bi[1], bi[0], bi[3], bi[2], k[kp + 1]);
    bo[2] := Irn(b, bi[2], bi[1], bi[0], bi[3], k[kp + 2]);
    bo[3] := Irn(b, bi[3], bi[2], bi[1], bi[0], k[kp + 3]);
  }

  // i_lround
  method ILround(b: Box, bo: array<bv32>, bi: array<bv32>, k: array<bv32>, kp: nat)
    requires bo.Length == bi.Length == 4 && kp + 4 <= k.Length && bo != bi && bo != k
    modifies bo
    ensures Io(bo) == AddKey(InvSubShift(b, Io(bi)), k[..], kp)
  {
    hide X, Irl, InvSubShiftCol;
    InverseTablesAre(b, bi[0], bi[3], bi[2], bi[1], k[kp]);
    InverseTablesAre(b, bi[1], bi[0], bi[3], bi[2], k[kp + 1]);
    InverseTablesAre(b, bi[2], bi[1], bi[0], bi[3], k[kp + 2]);
    InverseTablesAre(b, bi[3], bi[2], bi[1], bi[0], k[kp + 3]);
    bo[0] := Irl(b, bi[0], bi[3], bi[2], bi[1], k[kp]);
    bo[1] := Irl(b, bi[1], bi[0], bi[3], bi[2], k[kp + 1]);
    bo[2] := Irl(b, bi[2], bi[1], bi[0], bi[3], k[kp + 2]);
    bo[3] := Irl(b, bi[3], bi[2], bi[1], bi[0], k[kp + 3]);
  }

  // Two rounds, from b0 to b1 and back, with the key pointer moving on
  method TwoRounds(b: Box, b0: array<bv32>, b1: array<bv32>, k: array<bv32>, kp: nat, ghost m: Quad, ghost r: nat) returns (kp': nat)
    requires b0.Length == b1.Length == 4 && kp == 4 * r + 4 && kp + 8 <= k.Length && b0 != b1 && b0 != k && b1 != k
    requires Io(b0) == Rounds(b, m, k[..], r)
    modifies b0, b1
    ensures kp' == kp + 8 && Io(b0) == Rounds(b, m, k[..], r + 2)
  {
    hide AddKey, MixColumns, SubShift;
    FNround(b, b1, b0, k, kp);
    FNround(b, b0, b1, k, kp + 4);
    kp' := kp + 8;
  }

  method TwoInvRounds(b: Box, b0: array<bv32>, b1: array<bv32>, k: array<bv32>, kp: nat, ghost c: Quad, ghost r: nat) returns (kp': nat)
    requires b0.Length == b1.Length == 4 && kp == 4 * r + 4 && kp + 8 <= k.Length && b0 != b1 && b0 != k && b1 != k
    requires Io(b0) == InvRounds(b, c, k[..], r)
    modifies b0, b1
    ensures kp' == kp + 8 && Io(b0) == InvRounds(b, c, k[..], r + 2)
  {
    hide AddKey, InvMixColumns, InvSubShift;
    INround(b, b1, b0, k, kp);
    INround(b, b0, b1, k, kp + 4);
    kp' := kp + 8;
  }

  // The first key is added before the rounds.
  method WhitenKey(bo: array<bv32>, k: array<bv32>, src: Quad)
    requires bo.Length == 4 && 4 <= k.Length && bo != k
    modifies bo
    ensures Io(bo) == AddKey(src, k[..], 0)
  {
    hide X;
    bo[0], bo[1], bo[2], bo[3] := X(src.c0, k[0]), X(src.c1, k[1]), X(src.c2, k[2]), X(src.c3, k[3]);
  }

  // The last two rounds, the second without mixing
  method LastTwoRounds(b: Box, b0: array<bv32>, b1: array<bv32>, k: array<bv32>, kp: nat, ghost m: Quad, ghost r: nat)
    requires b0.Length == b1.Length == 4 && kp == 4 * r + 4 && kp + 8 <= k.Length && b0 != b1 && b0 != k && b1 != k
    requires Io(b0) == Rounds(b, m, k[..], r)
    modifies b0, b1
    ensures Io(b0) == Cipher(b, m, k[..], r + 2)
  {
    hide AddKey, MixColumns, SubShift, InvMixColumns, InvSubShift;
    FNround(b, b1, b0, k, kp);
    FLround(b, b0, b1, k, kp + 4);
  }

  // aes_encrypt is the published cipher.
  method Encrypt(b: Box, keyLen: KeyLen, keyEnc: array<bv32>, src: Quad) returns (dst: Quad)
    requires 4 * Nr(keyLen) + 4 <= keyEnc.Length
    ensures dst == Cipher(b, src, keyEnc[..], Nr(keyLen))
  {
    hide AddKey, MixColumns, SubShift, InvMixColumns, InvSubShift, Cipher;
    var k := keyEnc;
    var b0, b1 := new bv32[4], new bv32[4];
    WhitenKey(b0, k, src);
    var kp := 4;
    ghost var r := 0;
    if keyLen > 24 { kp := TwoRounds(b, b0, b1, k, kp, src, r); r := r + 2; }
    if keyLen > 16 { kp := TwoRounds(b, b0, b1, k, kp, src, r); r := r + 2; }
    kp := TwoRounds(b, b0, b1, k, kp, src, r);
    kp := TwoRounds(b, b0, b1, k, kp, src, r + 2);
    kp := TwoRounds(b, b0, b1, k, kp, src, r + 4);
    kp := TwoRounds(b, b0, b1, k, kp, src, r + 6);
    LastTwoRounds(b, b0, b1, k, kp, src, r + 8);
    dst := Quad(b0[0], b0[1], b0[2], b0[3]);
  }

  // The last two rounds, the second without mixing
  method LastTwoInvRounds(b: Box, b0: array<bv32>, b1: array<bv32>, k: array<bv32>, kp: nat, ghost c: Quad, ghost r: nat)
    requires b0.Length == b1.Length == 4 && kp == 4 * r + 4 && kp + 8 <= k.Length && b0 != b1 && b0 != k && b1 != k
    requires Io(b0) == InvRounds(b, c, k[..], r)
    modifies b0, b1
    ensures Io(b0) == EqInvCipher(b, c, k[..], r + 2)
  {
    hide AddKey, MixColumns, SubShift, InvMixColumns, InvSubShift;
    INround(b, b1, b0, k, kp);
    ILround(b, b0, b1, k, kp + 4);
  }

  // aes_decrypt is the equivalent inverse cipher.
  method Decrypt(b: Box, keyLen: KeyLen, keyDec: array<bv32>, src: Quad) returns (dst: Quad)
    requires 4 * Nr(keyLen) + 4 <= keyDec.Length
    ensures dst == EqInvCipher(b, src, keyDec[..], Nr(keyLen))
  {
    hide AddKey, MixColumns, SubShift, InvMixColumns, InvSubShift, EqInvCipher;
    var k := keyDec;
    var b0, b1 := new bv32[4], new bv32[4];
    WhitenKey(b0, k, src);
    var kp := 4;
    ghost var r := 0;
    if keyLen > 24 { kp := TwoInvRounds(b, b0, b1, k, kp, src, r); r := r + 2; }
    if keyLen > 16 { kp := TwoInvRounds(b, b0, b1, k, kp, src, r); r := r + 2; }
    kp := TwoInvRounds(b, b0, b1, k, kp, src, r);
    kp := TwoInvRounds(b, b0, b1, k, kp, src, r + 2);
    kp := TwoInvRounds(b, b0, b1, k, kp, src, r + 4);
    kp := TwoInvRounds(b, b0, b1, k, kp, src, r + 6);
    LastTwoInvRounds(b, b0, b1, k, kp, src, r + 8);
    dst := Quad(b0[0], b0[1], b0[2], b0[3]);
  }

  // With the schedules crypto_aes_expand_key leaves, decryption undoes encryption.
  method EncryptThenDecrypt(b: Box, rcon: nat -> bv32, keyLen: KeyLen, key: seq<bv32>, m: Quad) returns (m': Quad)
    requires Inverse(b) && |key| == Nk(keyLen)
    ensures m' == m
  {
    hide Cipher, EqInvCipher, Reversed, Expanded, Inverse;
    var enc, dec := new bv32[64], new bv32[64];
    var err := ExpandKey(b, rcon, keyLen, enc, dec, key);
    ghost var w, dw := enc[..], dec[..];
    var c := Encrypt(b, keyLen, enc, m);
    m' := Decrypt(b, keyLen, dec, c);
    DecryptUndoes(b, m, w, dw, Nr(keyLen));
  }
}
