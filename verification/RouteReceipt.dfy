/** The object keys of an operator route receipt: which keys are accepted, and the scope they name. */
module RouteReceipt {
  import opened Common

  datatype Receipt = Receipt(
    revision: string,
    manifestKey: string,
    signatureKey: string,
    livePointerKey: string,
    state: string)

  predicate LowerHex(s: string) {
    forall i :: 0 <= i < |s| ==> '0' <= s[i] <= '9' || 'a' <= s[i] <= 'f'
  }

  predicate Sha256Text(s: string) {
    |s| == 64 && LowerHex(s)
  }

  predicate UuidText(s: string) {
    && |s| == 36 && s[8] == '-' && s[13] == '-' && s[18] == '-' && s[23] == '-'
    && LowerHex(s[..8]) && LowerHex(s[9..13]) && LowerHex(s[14..18]) && LowerHex(s[19..23]) && LowerHex(s[24..])
  }

  predicate HexGroup(s: string, length: nat) {
    |s| == length && forall i :: 0 <= i < |s| ==> s[i] in "0123456789abcdef"
  }

  /** A scope is named by five groups of lower-case hexadecimal digits, and a signature by one. */
  lemma NamesExactly(s: string)
    ensures Sha256Text(s) <==> HexGroup(s, 64)
    ensures UuidText(s) <==>
            exists a, b, c, d, e ::
              && HexGroup(a, 8) && HexGroup(b, 4) && HexGroup(c, 4) && HexGroup(d, 4) && HexGroup(e, 12)
              && s == a + "-" + b + "-" + c + "-" + d + "-" + e
  {
    HexDigits();
    if UuidText(s) {
      var (a, b, c, d, e) := (s[..8], s[9..13], s[14..18], s[19..23], s[24..]);
      assert HexGroup(a, 8) && HexGroup(b, 4) && HexGroup(c, 4) && HexGroup(d, 4) && HexGroup(e, 12);
      assert s == a + "-" + b + "-" + c + "-" + d + "-" + e;
    }
    if a, b, c, d, e :|
      && HexGroup(a, 8) && HexGroup(b, 4) && HexGroup(c, 4) && HexGroup(d, 4) && HexGroup(e, 12)
      && s == a + "-" + b + "-" + c + "-" + d + "-" + e
    {
      assert s[..8] == a && s[9..13] == b && s[14..18] == c && s[19..23] == d && s[24..] == e;
    }
  }

  lemma HexDigits()
    ensures forall c: char :: c in "0123456789abcdef" <==> '0' <= c <= '9' || 'a' <= c <= 'f'
  {
  }

  predicate StartsWith(s: string, prefix: string) {
    |prefix| <= |s| && s[..|prefix|] == prefix
  }

  predicate EndsWith(s: string, suffix: string) {
    |suffix| <= |s| && s[|s| - |suffix|..] == suffix
  }

  function RemovePrefix(s: string, prefix: string): string {
    if StartsWith(s, prefix) then s[|prefix|..] else s
  }

  function RemoveSuffix(s: string, suffix: string): string {
    if EndsWith(s, suffix) then s[..|s| - |suffix|] else s
  }

  const SCOPES := "milk/v1/scopes/"
  const LIVE_KEY := "/routes/current.json"
  const ED25519 := ".ed25519"

  function ManifestSuffix(revision: string): string {
    "/routes/versions/" + revision + ".json"
  }

  function SignaturePrefix(prefix: string, revision: string): string {
    prefix + "/routes/signatures/" + revision + "/"
  }

  function ReceiptPrefix(receipt: Receipt): Option<string> {
    var suffix := ManifestSuffix(receipt.revision);
    if !EndsWith(receipt.manifestKey, suffix) then None
    else
      var prefix := RemoveSuffix(receipt.manifestKey, suffix);
      var scopeId := RemovePrefix(prefix, SCOPES);
      var signatures := SignaturePrefix(prefix, receipt.revision);
      var signature := RemoveSuffix(RemovePrefix(receipt.signatureKey, signatures), ED25519);
      if prefix != SCOPES + scopeId || !UuidText(scopeId)
         || !StartsWith(receipt.signatureKey, signatures) || !EndsWith(receipt.signatureKey, ED25519)
         || !Sha256Text(signature) || receipt.livePointerKey != prefix + LIVE_KEY || receipt.state != "active"
      then None
      else Some(prefix)
  }

  /** The keys of an active route of this scope, with this revision and signature. */
  function Printed(scopeId: string, revision: string, signature: string): Receipt {
    var scope := "milk/v1/scopes/" + scopeId;
    Receipt(revision,
            scope + ("/routes/versions/" + revision + ".json"),
            scope + "/routes/signatures/" + revision + "/" + signature + ".ed25519",
            scope + "/routes/current.json",
            "active")
  }

  /** A receipt is accepted exactly when its keys are those of one scope, its own revision and one signature,
      and the prefix returned is that scope's. */
  lemma AcceptedReceipts(receipt: Receipt, prefix: string)
    ensures ReceiptPrefix(receipt) == Some(prefix) <==>
            exists scopeId, signature ::
              && UuidText(scopeId) && Sha256Text(signature) && prefix == SCOPES + scopeId
              && receipt == Printed(scopeId, receipt.revision, signature)
  {
  }
}
