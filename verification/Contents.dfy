/** File contents and their recorded identities. */
module Contents {

  type Bytes = string

  datatype Identity = Identity(sha256: string, bytes: nat)

  type Digest = Bytes -> string

  /** The text of a digest: 64 hexadecimal digits in lower case. */
  predicate IsDigest(text: string) {
    |text| == 64 && forall k :: 0 <= k < 64 ==> '0' <= text[k] <= '9' || 'a' <= text[k] <= 'f'
  }

  /** Digests identify contents. */
  ghost predicate Identifying(sha: Digest) {
    forall a, b :: sha(a) == sha(b) ==> a == b
  }

  function IdentityOf(sha: Digest, content: Bytes): (i: Identity) { Identity(sha(content), |content|) }
}
