/**
 * The integrity check of an update artifact: the last byte of the file is a
 * checksum equal to the sum, modulo 256, of all bytes before it.
 */
module Integrity {
  import opened Base

  /** Sum of the bytes of `s` as an unbounded integer (no wrap-around). */
  function Sum(s: seq<Byte>): nat
  {
    if s == [] then 0 else Sum(s[..|s| - 1]) + s[|s| - 1]
  }

  /** What `VerifyChecksum` promises: a non-empty payload whose byte sum wraps to `checksum`. */
  predicate ChecksumMatches(payload: seq<Byte>, checksum: Byte)
  {
    payload != [] && Sum(payload) % 256 == checksum
  }

  /** An artifact file passes verification: its last byte is the checksum of the bytes before it. */
  predicate Intact(bytes: seq<Byte>)
  {
    bytes != [] && ChecksumMatches(bytes[..|bytes| - 1], bytes[|bytes| - 1])
  }

  /** What an update vendor ships for `payload`: the payload followed by its checksum byte. */
  function Seal(payload: seq<Byte>): (r: seq<Byte>)
    ensures |r| == |payload| + 1 && r[..|payload|] == payload
    ensures r[|payload|] == Sum(payload) % 256
  {
    payload + [Sum(payload) % 256]
  }

  /**
   * Adds the payload bytes in an 8-bit accumulator that wraps around at 256
   * and compares the result with `checksum`; an empty payload never matches.
   */
  method VerifyChecksum(checksum: Byte, fileBytes: seq<Byte>) returns (checkSumVerified: bool)
    ensures checkSumVerified <==> ChecksumMatches(fileBytes, checksum)
  {
    checkSumVerified := false;
    if fileBytes != [] {
      var calculatedSum: Byte := 0;
      for i := 0 to |fileBytes|
        invariant calculatedSum == Sum(fileBytes[..i]) % 256
      {
        assert fileBytes[..i + 1][..i] == fileBytes[..i];
        calculatedSum := (calculatedSum + fileBytes[i]) % 256;
      }
      assert fileBytes[..|fileBytes|] == fileBytes;
      if calculatedSum == checksum {
        checkSumVerified := true;
      }
    }
  }

  /** Sum of the bytes after overwriting one of them. */
  lemma {:induction false} SumUpdate(s: seq<Byte>, i: nat, v: Byte)
    requires i < |s|
    ensures Sum(s[i := v]) == Sum(s) - s[i] + v
  {
    var n := |s| - 1;
    if i == n {
      assert s[i := v][..n] == s[..n];
    } else {
      assert s[i := v][..n] == s[..n][i := v];
      SumUpdate(s[..n], i, v);
    }
  }

  /** Artifacts of zero or one byte never pass: their payload is empty. */
  lemma ShortArtifactsFail(bytes: seq<Byte>)
    requires |bytes| <= 1
    ensures !Intact(bytes)
  {
  }

  /** The reference artifacts: 10 + 20 + 30 == 60 passes, a trailing 61 does not. */
  lemma ReferenceArtifacts()
    ensures Intact([10, 20, 30, 60])
    ensures !Intact([10, 20, 30, 61])
  {
    var payload: seq<Byte> := [10, 20, 30];
    assert [10, 20, 30, 60][..3] == payload && [10, 20, 30, 61][..3] == payload;
    assert payload[..2][..1] == [10] && [10][..0] == [];
    assert payload[..2] == [10, 20];
    assert Sum(payload) == 60;
  }

  /** Sealing any non-empty payload yields an artifact that passes verification. */
  lemma SealIntact(payload: seq<Byte>)
    requires payload != []
    ensures Intact(Seal(payload))
  {
  }

  /** Verification accepts exactly the sealed artifacts with a non-empty payload. */
  lemma IntactIffSealed(bytes: seq<Byte>)
    ensures Intact(bytes) <==> |bytes| >= 2 && bytes == Seal(bytes[..|bytes| - 1])
  {
  }

  /** Changing any single byte of an artifact that passes makes it fail. */
  lemma SingleByteCorruptionDetected(bytes: seq<Byte>, i: nat, v: Byte)
    requires Intact(bytes)
    requires i < |bytes| && v != bytes[i]
    ensures !Intact(bytes[i := v])
  {
    var n := |bytes| - 1;
    var corrupt := bytes[i := v];
    if i == n {
      assert corrupt[..n] == bytes[..n];
    } else {
      assert corrupt[..n] == bytes[..n][i := v];
      SumUpdate(bytes[..n], i, v);
    }
  }
}
