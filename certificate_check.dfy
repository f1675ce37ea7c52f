/** The pinning check and the custom validator that the transport calls while it holds the TLS
    handshake: the presented certificate is accepted only when its hash is exactly the trusted one,
    and any failure of the check rejects it. */
module CertificateCheck {

  /** The 20-byte hash the scenario trusts, compiled into the page. */
  const TrustedHash: seq<bv8> := [
    0x28, 0xb8, 0x85, 0x04, 0xf6, 0x09, 0xf6, 0x85, 0xf1, 0x68,
    0xb9, 0xa4, 0x9c, 0x8f, 0x0e, 0xc4, 0x9e, 0xad, 0x8b, 0xc2
  ]

  /** Enumerable.SequenceEqual on two byte arrays: arrays of different counts are unequal at once;
      otherwise the bytes are compared pairwise from the front until the first difference. */
  function SequenceEqual(first: seq<bv8>, second: seq<bv8>): (equal: bool)
    ensures equal ==> |first| == |second|
    decreases |first|
  {
    if |first| != |second| then false
    else if first == [] then true
    else first[0] == second[0] && SequenceEqual(first[1..], second[1..])
  }

  /** The byte-by-byte comparison is exactly sequence equality, in both directions. */
  lemma {:induction false} SequenceEqualIsEquality(first: seq<bv8>, second: seq<bv8>)
    ensures SequenceEqual(first, second) <==> first == second
    decreases |first|
  {
    if |first| == |second| && first != [] {
      SequenceEqualIsEquality(first[1..], second[1..]);
      assert first == [first[0]] + first[1..];
      assert second == [second[0]] + second[1..];
    }
  }

  /** What awaiting the check gives the validator: a verdict, or an exception. */
  datatype CheckResult = Completed(isValid: bool) | Threw

  /** IsCertificateValidAsync on a certificate whose hash is `serverHash`. `faulted` stands for the
      awaited work raising instead of returning (the delay, or reading the certificate's hash). */
  function IsCertificateValid(serverHash: seq<bv8>, faulted: bool): (r: CheckResult)
    ensures r.Threw? <==> faulted
    ensures r.Completed? ==> (r.isValid <==> serverHash == TrustedHash)
    ensures |serverHash| != |TrustedHash| ==> r != Completed(true)
  {
    if faulted then Threw
    else
      SequenceEqualIsEquality(serverHash, TrustedHash);
      Completed(SequenceEqual(serverHash, TrustedHash))
  }

  datatype Decision = Accept | Reject

  /** How MyCustomServerCertificateValidator answers a check result. */
  function ValidatorDecision(check: CheckResult): (d: Decision)
    ensures d == Accept <==> check == Completed(true)
    ensures check.Threw? ==> d == Reject
  {
    match check
    case Completed(isCertificateValid) => if isCertificateValid then Accept else Reject
    case Threw => Reject
  }

  /** The validator accepts exactly the certificates whose hash is the pinned one, and only when
      the check did not fail. */
  lemma AcceptedExactlyWhenPinned(serverHash: seq<bv8>, faulted: bool)
    ensures ValidatorDecision(IsCertificateValid(serverHash, faulted)) == Accept
            <==> !faulted && serverHash == TrustedHash
  {
  }

  /** The arguments of the ServerCustomValidationRequested event: the presented certificate's hash
      and whether the connection has been rejected. The intermediate chain is read by the validator
      but never used, so it is not modelled. */
  class ValidationRequestedArgs {
    const serverCertificateHash: seq<bv8>
    var rejected: bool

    constructor (hash: seq<bv8>)
      ensures serverCertificateHash == hash && !rejected
    {
      serverCertificateHash := hash;
      rejected := false;
    }

    method Reject()
      modifies this
      ensures rejected
    {
      rejected := true;
    }
  }

  /** MyCustomServerCertificateValidator: rejects when the check says invalid or throws, and
      otherwise leaves the certificate as it was. */
  method MyCustomServerCertificateValidator(args: ValidationRequestedArgs, faulted: bool)
    modifies args
    ensures args.rejected
            == (old(args.rejected)
                || ValidatorDecision(IsCertificateValid(args.serverCertificateHash, faulted)) == Reject)
    ensures !args.rejected ==> !faulted && args.serverCertificateHash == TrustedHash
  {
    var check := IsCertificateValid(args.serverCertificateHash, faulted);
    match check
    case Completed(isCertificateValid) =>
      if !isCertificateValid {
        args.Reject();
      }
    case Threw =>
      args.Reject();
  }
}
