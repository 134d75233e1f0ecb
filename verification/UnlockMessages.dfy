/** The message the validators sign for an unlock, as the lock program builds it. */
module UnlockMessages {
  import opened Bytes

  function CodeOf(c: char): byte
    requires c < 128 as char
  {
    c as int
  }

  function Ascii(s: string): (bs: seq<byte>)
    requires forall c :: c in s ==> c < 128 as char
    ensures |bs| == |s| && forall i :: 0 <= i < |s| ==> bs[i] == s[i] as int
  {
    seq(|s|, i requires 0 <= i < |s| => assert s[i] in s; CodeOf(s[i]))
  }

  const UNLOCK_DOMAIN: seq<byte> := Ascii("SOL_DCC_BRIDGE_UNLOCK_V1")

  function UnlockMessage(transferId: seq<byte>, recipient: Bytes32, amount: nat, burnTxHash: Bytes32,
                         dccChainId: nat, expiration: i64): seq<byte>
  {
    UNLOCK_DOMAIN + transferId + recipient + ToLE(8, amount) + burnTxHash + ToLE(4, dccChainId)
    + ToLE(8, I64ToU64(expiration))
  }

  /** construct_unlock_message: the fields pushed one after the other. */
  method ConstructUnlockMessage(transferId: seq<byte>, recipient: Bytes32, amount: nat, burnTxHash: Bytes32,
                                dccChainId: nat, expiration: i64) returns (msg: seq<byte>)
    ensures msg == UnlockMessage(transferId, recipient, amount, burnTxHash, dccChainId, expiration)
  {
    msg := UNLOCK_DOMAIN;
    msg := msg + transferId;
    msg := msg + recipient;
    msg := msg + ToLE(8, amount);
    msg := msg + burnTxHash;
    msg := msg + ToLE(4, dccChainId);
    msg := msg + ToLE(8, I64ToU64(expiration));
  }
}
