/**
 * The main generation loop of simple-function-call:
 *
 *   for (n_pos = 0; n_pos + batch.n_tokens < n_prompt + n_predict; ) { ... }
 *
 * The first batch is the n_prompt prompt tokens; every later batch is the
 * one token just sampled. Each turn decodes the batch, samples a token,
 * stops at an end-of-generation token, converts the token to its text piece
 * and appends it to the response.
 *
 * The inference engine is an oracle indexed by the turn number k = 0, 1, ...:
 * whether decoding fails on that turn, which token is then sampled, whether a
 * token ends generation, and the piece of a token (None when
 * llama_token_to_piece returns a negative count).
 */
module Generation {
  import opened Text

  datatype Engine = Engine(decodeFails: nat -> bool, sampled: nat -> int,
                           isEndOfGeneration: int -> bool, pieceOf: int -> Option<string>)

  /** The response text with the pieces printed one by one, or the turn at which main returns 1. */
  datatype GenResult =
    | Generated(pieces: seq<string>, text: string)
    | DecodeFailed(turn: nat)
    | PieceFailed(turn: nat)

  /** Turn k appends a piece: decoding works, the token does not end generation, and it has a piece. */
  predicate TurnAppends(e: Engine, k: nat) {
    !e.decodeFails(k) && !e.isEndOfGeneration(e.sampled(k)) && e.pieceOf(e.sampled(k)).Some?
  }

  function PieceAt(e: Engine, k: nat): string
    requires TurnAppends(e, k)
  {
    e.pieceOf(e.sampled(k)).value
  }

  /** Every turn before `n` appended its piece. */
  predicate AllAppend(e: Engine, n: nat) {
    forall k: nat :: k < n ==> TurnAppends(e, k)
  }

  /** The number of pieces the budget allows: n_predict, or none when it is not positive. */
  function Budget(nPredict: int): nat {
    if nPredict > 0 then nPredict else 0
  }

  method Generate(nPrompt: nat, nPredict: int, e: Engine) returns (r: GenResult)
    // At most n_predict pieces, each the piece of its turn, and the text is their concatenation.
    ensures r.Generated? ==> |r.pieces| <= Budget(nPredict) && AllAppend(e, |r.pieces|)
    ensures r.Generated? ==> forall k :: 0 <= k < |r.pieces| ==> r.pieces[k] == PieceAt(e, k)
    ensures r.Generated? ==> r.text == Concat(r.pieces)
    // Generation stops when the budget is spent or at an end-of-generation token, which adds nothing.
    ensures r.Generated? ==>
              || |r.pieces| == Budget(nPredict)
              || (!e.decodeFails(|r.pieces|) && e.isEndOfGeneration(e.sampled(|r.pieces|)))
    // A failed decode or a failed conversion ends the program at a turn within the budget.
    ensures r.DecodeFailed? ==> r.turn < Budget(nPredict) && AllAppend(e, r.turn) && e.decodeFails(r.turn)
    ensures r.PieceFailed? ==>
              && r.turn < Budget(nPredict) && AllAppend(e, r.turn)
              && !e.decodeFails(r.turn) && !e.isEndOfGeneration(e.sampled(r.turn))
              && e.pieceOf(e.sampled(r.turn)).None?
    // With no positive budget nothing is decoded and nothing appended.
    ensures nPredict <= 0 ==> r == Generated([], [])
  {
    var nDecode := 0;
    var responseText := "";
    var pieces: seq<string> := [];
    var batchTokens := nPrompt;
    var nPos := 0;
    while nPos + batchTokens < nPrompt + nPredict
      invariant nPos + batchTokens == nPrompt + nDecode
      invariant nDecode == |pieces| && nDecode <= Budget(nPredict)
      invariant AllAppend(e, nDecode)
      invariant forall k :: 0 <= k < |pieces| ==> pieces[k] == PieceAt(e, k)
      invariant responseText == Concat(pieces)
      decreases nPrompt + nPredict - (nPos + batchTokens)
    {
      if e.decodeFails(nDecode) {
        return DecodeFailed(nDecode);
      }
      nPos := nPos + batchTokens;
      var token := e.sampled(nDecode);
      if e.isEndOfGeneration(token) {
        break;
      }
      var piece := e.pieceOf(token);
      if piece.None? {
        return PieceFailed(nDecode);
      }
      ConcatAppend(pieces, piece.value);
      responseText := responseText + piece.value;
      pieces := pieces + [piece.value];
      batchTokens := 1;
      nDecode := nDecode + 1;
    }
    return Generated(pieces, responseText);
  }
}
