/**
 * The callback payload that an admin's "Block User" button carries:
 * `block_<id>` is built from the sender's id when a comment is forwarded
 * (main.py:117) and taken apart with `data.split("_")[1]` and `int(...)`
 * when the button is pressed (main.py:148-149).
 */
module Payload {
  import opened Options
  import opened Text

  type UserId = int

  const BlockWord: string := "block"
  const Separator: char := '_'
  /** The prefix that marks a block request: `"block_"`. */
  const BlockPrefix: string := BlockWord + [Separator]

  /** `f"block_{user_id}"` */
  function BlockPayload(id: UserId): (p: string)
    ensures BlockPrefix <= p
  {
    BlockPrefix + IntToString(id)
  }

  /**
   * The second field of the payload split at `_`, as `data.split("_")[1]`
   * reads it: the longest underscore-free run right after `block_`.
   */
  function IdField(data: string): (f: string)
    requires BlockPrefix <= data
    ensures Free(f, Separator)
    ensures f <= data[|BlockPrefix|..]
    ensures |f| < |data| - |BlockPrefix| ==> data[|BlockPrefix| + |f|] == Separator
  {
    var rest := data[|BlockPrefix|..];
    assert data == BlockWord + [Separator] + rest;
    SplitAtFirst(BlockWord, Separator, rest);
    SplitJoin(rest, Separator);
    var parts := Split(rest, Separator);
    FirstPieceOfJoin(parts, Separator);
    Split(data, Separator)[1]
  }

  /**
   * `int(data.split("_")[1])` for a payload that starts with `block_`;
   * `None` is the ValueError that `int` raises on a malformed id.
   */
  function DecodeBlock(data: string): (r: Option<UserId>)
    requires BlockPrefix <= data
    ensures r.Some? <==> IsDecimal(IdField(data))
    ensures IdField(data) == [] ==> r.None?
  {
    ParseInt(IdField(data))
  }

  /** Decoding the payload built for a user gives back that user's id. */
  lemma BlockPayloadRoundTrip(id: UserId)
    ensures DecodeBlock(BlockPayload(id)) == Some(id)
  {
    var p := BlockPayload(id);
    var digits := IntToString(id);
    assert p[|BlockPrefix|..] == digits;
    assert p == BlockWord + [Separator] + digits;
    SplitAtFirst(BlockWord, Separator, digits);
    SplitFree(digits, Separator);
    assert IdField(p) == digits;
    IntToStringRoundTrip(id);
  }

  /** Two users never get the same button payload. */
  lemma BlockPayloadInjective(a: UserId, b: UserId)
    requires BlockPayload(a) == BlockPayload(b)
    ensures a == b
  {
    BlockPayloadRoundTrip(a);
    BlockPayloadRoundTrip(b);
  }
}
