// camellia_do_encrypt and camellia_do_decrypt (crypto/camellia.c) in place.
module CamelliaCrypt {
  import opened Camellia

  // ROUNDS(i) of camellia_do_encrypt; io[0] and io[1] are its two halves.
  method RoundsInPlace(t: Tables, subkey: array<Half>, io: array<Half>, b: nat)
    requires 8 * b + 7 < subkey.Length && io.Length == 2 && io != subkey
    modifies io
    ensures (io[0], io[1]) == Rounds(t, subkey[..], b, old(io[0]), old(io[1]))
  {
    hide Round;
    var i := 8 * b;
    io[1] := Round(t, io[0], subkey[i + 2], io[1]);
    io[0] := Round(t, io[1], subkey[i + 3], io[0]);
    io[1] := Round(t, io[0], subkey[i + 4], io[1]);
    io[0] := Round(t, io[1], subkey[i + 5], io[0]);
    io[1] := Round(t, io[0], subkey[i + 6], io[1]);
    io[0] := Round(t, io[1], subkey[i + 7], io[0]);
  }

  // FLS(i)
  method FlsInPlace(subkey: array<Half>, io: array<Half>, kl: nat, kr: nat)
    requires kl < subkey.Length && kr < subkey.Length && io.Length == 2 && io != subkey
    modifies io
    ensures io[0] == FL(old(io[0]), subkey[kl]) && io[1] == FLInv(old(io[1]), subkey[kr])
  {
    hide FL, FLInv;
    io[0] := FL(io[0], subkey[kl]);
    io[1] := FLInv(io[1], subkey[kr]);
  }

  lemma EncryptUnrolled(t: Tables, sk: seq<Half>, n: nat, b: nat, e1: Half, e2: Half)
    requires b < n && 8 * n < |sk|
    ensures var (x, y) := Rounds(t, sk, b, e1, e2);
            EncryptFrom(t, sk, n, b, e1, e2)
              == if b + 1 == n then (x, y) else EncryptFrom(t, sk, n, b + 1, FL(x, sk[8 * b + 8]),
                                                            FLInv(y, sk[8 * b + 9]))
  {
    hide Rounds, FL, FLInv;
  }

  // Blocks of rounds: while any are left, the rest of the encryption of what io holds is the
  // encryption of what it held.
  method EncryptBlock(t: Tables, subkey: array<Half>, io: array<Half>, b: nat, n: nat)
    requires b < n && 8 * n < subkey.Length && io.Length == 2 && io != subkey
    modifies io
    ensures var was := old(EncryptFrom(t, subkey[..], n, b, io[0], io[1]));
            if b + 1 == n then (io[0], io[1]) == was
            else EncryptFrom(t, subkey[..], n, b + 1, io[0], io[1]) == was
  {
    hide Rounds, FL, FLInv, EncryptFrom;
    EncryptUnrolled(t, subkey[..], n, b, io[0], io[1]);
    RoundsInPlace(t, subkey, io, b);
    if b + 1 < n { FlsInPlace(subkey, io, 8 * b + 8, 8 * b + 9); }
  }

  // camellia_do_encrypt
  method Encrypt(t: Tables, subkey: array<Half>, io: array<Half>, max: nat)
    requires (max == 24 || max == 32) && max < subkey.Length && io.Length == 2 && io != subkey
    modifies io
    ensures (io[0], io[1]) == DoEncrypt(t, subkey[..], max / 8, old(io[0]), old(io[1]))
  {
    hide Xor, EncryptFrom;
    var n := max / 8;
    io[0] := Xor(io[0], subkey[0]);
    EncryptBlock(t, subkey, io, 0, n);
    EncryptBlock(t, subkey, io, 1, n);
    EncryptBlock(t, subkey, io, 2, n);
    if max == 32 { EncryptBlock(t, subkey, io, 3, n); }
    io[1] := Xor(io[1], subkey[max]);
  }

  // ROUNDS(i) of camellia_do_decrypt
  method RoundsBackInPlace(t: Tables, subkey: array<Half>, io: array<Half>, b: nat)
    requires 8 * b + 7 < subkey.Length && io.Length == 2 && io != subkey
    modifies io
    ensures (io[0], io[1]) == RoundsBack(t, subkey[..], b, old(io[0]), old(io[1]))
  {
    hide Round;
    var i := 8 * b;
    io[1] := Round(t, io[0], subkey[i + 7], io[1]);
    io[0] := Round(t, io[1], subkey[i + 6], io[0]);
    io[1] := Round(t, io[0], subkey[i + 5], io[1]);
    io[0] := Round(t, io[1], subkey[i + 4], io[0]);
    io[1] := Round(t, io[0], subkey[i + 3], io[1]);
    io[0] := Round(t, io[1], subkey[i + 2], io[0]);
  }

  lemma DecryptUnrolled(t: Tables, sk: seq<Half>, b: nat, e1: Half, e2: Half)
    requires 8 * b + 7 < |sk|
    ensures var (x, y) := RoundsBack(t, sk, b, e1, e2);
            DecryptFrom(t, sk, b, e1, e2)
              == if b == 0 then (x, y) else DecryptFrom(t, sk, b - 1, FL(x, sk[8 * b + 1]), FLInv(y, sk[8 * b]))
  {
    hide RoundsBack, FL, FLInv;
  }

  method DecryptBlock(t: Tables, subkey: array<Half>, io: array<Half>, b: nat)
    requires 8 * b + 7 < subkey.Length && io.Length == 2 && io != subkey
    modifies io
    ensures var was := old(DecryptFrom(t, subkey[..], b, io[0], io[1]));
            if b == 0 then (io[0], io[1]) == was else DecryptFrom(t, subkey[..], b - 1, io[0], io[1]) == was
  {
    hide RoundsBack, FL, FLInv, DecryptFrom;
    DecryptUnrolled(t, subkey[..], b, io[0], io[1]);
    RoundsBackInPlace(t, subkey, io, b);
    if b > 0 { FlsInPlace(subkey, io, 8 * b + 1, 8 * b); }
  }

  // camellia_do_decrypt
  method Decrypt(t: Tables, subkey: array<Half>, io: array<Half>, max: nat)
    requires (max == 24 || max == 32) && max < subkey.Length && io.Length == 2 && io != subkey
    modifies io
    ensures (io[0], io[1]) == DoDecrypt(t, subkey[..], max / 8, old(io[0]), old(io[1]))
  {
    hide Xor, DecryptFrom;
    io[0] := Xor(io[0], subkey[max]);
    if max == 32 { DecryptBlock(t, subkey, io, 3); }
    DecryptBlock(t, subkey, io, 2);
    DecryptBlock(t, subkey, io, 1);
    DecryptBlock(t, subkey, io, 0);
    io[1] := Xor(io[1], subkey[0]);
  }

  // Under a schedule, decryption takes the textbook ciphertext back to the plaintext (its
  // halves to be swapped by the caller).
  lemma DecryptsTextbook(t: Tables, sub: seq<Half>, n: nat, sk: seq<Half>, m1: Half, m2: Half)
    requires n > 0 && 8 * n + 1 < |sub| && Scheduled(sub, n, sk)
    ensures 8 * n < |sk|
    ensures var (c1, c2) := Textbook(FOf(t), sub, n, m1, m2); DoDecrypt(t, sk, n, c1, c2) == (m2, m1)
  {
    EncryptIsTextbook(t, sub, n, sk, m1, m2);
    DecryptUndoes(t, sk, n, m1, m2);
    hide Scheduled, DoEncrypt, DoDecrypt, Textbook;
  }
}
