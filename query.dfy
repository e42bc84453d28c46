/**
 * Query strings and form bodies of the shape `name=value&name=value`, as the
 * worker reads them (`URLSearchParams`) and as it writes them (template strings
 * that paste each value in raw, without percent-encoding).
 */
module Query {
  import opened Options
  import opened Strings

  datatype Param = Param(name: string, value: string)

  /** `params.get(name)`: the value of the first parameter with that name, or None. */
  function Get(params: seq<Param>, name: string): Option<string>
    decreases |params|
  {
    if params == [] then None
    else if params[0].name == name then Some(params[0].value)
    else Get(params[1..], name)
  }

  /** `Get` finds a value exactly when some parameter has the name, and then it is the first such parameter's. */
  lemma {:induction false} GetFinds(params: seq<Param>, name: string)
    ensures Get(params, name).None? <==> forall i :: 0 <= i < |params| ==> params[i].name != name
    ensures Get(params, name).Some? ==>
              exists i :: 0 <= i < |params| && params[i] == Param(name, Get(params, name).value)
                          && forall j :: 0 <= j < i ==> params[j].name != name
    decreases |params|
  {
    if params != [] && params[0].name != name {
      var tail := params[1..];
      GetFinds(tail, name);
      if Get(tail, name).Some? {
        var i :| 0 <= i < |tail| && tail[i] == Param(name, Get(tail, name).value)
                 && forall j :: 0 <= j < i ==> tail[j].name != name;
        assert params[i + 1] == tail[i];
        assert forall j :: 0 <= j < i + 1 ==> params[j].name != name by {
          forall j | 0 <= j < i + 1 ensures params[j].name != name {
            if j > 0 { assert params[j] == tail[j - 1]; }
          }
        }
      } else {
        forall i | 0 <= i < |params| ensures params[i].name != name {
          if i > 0 { assert params[i] == tail[i - 1]; }
        }
      }
    }
  }

  /** One `name=value` piece, pasted together raw. */
  function Piece(p: Param): string
  {
    p.name + "=" + p.value
  }

  function Pieces(params: seq<Param>): (pieces: seq<string>)
    ensures |pieces| == |params|
    ensures forall i :: 0 <= i < |params| ==> pieces[i] == Piece(params[i])
  {
    seq(|params|, i requires 0 <= i < |params| => Piece(params[i]))
  }

  /** The raw concatenation the worker's template strings produce. */
  function Encode(params: seq<Param>): string
  {
    Join(Pieces(params), '&')
  }

  /** A raw `name=value&...` string, one piece at a time. */
  lemma EncodeCons(ps: seq<Param>)
    requires ps != []
    ensures |ps| == 1 ==> Encode(ps) == Piece(ps[0])
    ensures |ps| >= 2 ==> Encode(ps) == Piece(ps[0]) + "&" + Encode(ps[1..])
  {
    assert Pieces(ps)[1..] == Pieces(ps[1..]);
  }

  /** A raw `name=value&...` string ends with its last piece. */
  lemma {:induction false} EncodeLast(ps: seq<Param>)
    requires |ps| >= 2
    ensures Encode(ps) == Encode(ps[..|ps| - 1]) + "&" + Piece(ps[|ps| - 1])
    decreases |ps|
  {
    EncodeCons(ps);
    var init := ps[..|ps| - 1];
    if |ps| == 2 {
      EncodeCons(init);
      assert ps[1..] == [ps[1]];
      EncodeCons(ps[1..]);
    } else {
      EncodeLast(ps[1..]);
      assert ps[1..][..|ps| - 2] == init[1..];
      assert ps[1..][|ps| - 2] == ps[|ps| - 1];
      EncodeCons(init);
    }
  }

  /** The first parameter with a name is the one `Get` finds. */
  lemma {:induction false} GetFirst(ps: seq<Param>, i: nat)
    requires i < |ps|
    requires forall j :: 0 <= j < i ==> ps[j].name != ps[i].name
    ensures Get(ps, ps[i].name) == Some(ps[i].value)
    decreases i
  {
    if i > 0 {
      assert ps[1..][i - 1] == ps[i];
      GetFirst(ps[1..], i - 1);
    }
  }

  /** Reading one piece: the name runs to the first `=`, the value is the rest (empty when there is no `=`). */
  function ParsePiece(piece: string): (p: Param)
    ensures '=' !in p.name
  {
    var parts := Split(piece, '=');
    Param(parts[0], Join(parts[1..], '='))
  }

  function ParsePieces(pieces: seq<string>): seq<Param>
  {
    if pieces == [] then []
    else if pieces[0] == "" then ParsePieces(pieces[1..])
    else [ParsePiece(pieces[0])] + ParsePieces(pieces[1..])
  }

  /** Reading a query string: split at `&`, skip empty pieces, split each piece at its first `=`. */
  function Decode(query: string): seq<Param>
  {
    ParsePieces(Split(query, '&'))
  }

  /**
   * Parameters that survive raw concatenation: no `&` anywhere, no `=` in a name, and
   * neither `+` nor `%` anywhere, which a form reader would turn into a space or
   * percent-decode.
   */
  predicate Plain(params: seq<Param>)
  {
    forall i :: 0 <= i < |params| ==>
      && '&' !in params[i].name && '&' !in params[i].value && '=' !in params[i].name
      && '+' !in params[i].name && '+' !in params[i].value
      && '%' !in params[i].name && '%' !in params[i].value
  }

  lemma ParsePieceOfPiece(p: Param)
    requires '=' !in p.name
    ensures ParsePiece(Piece(p)) == p
  {
    SplitAfterPiece(p.name, '=', p.value);
    assert Piece(p) == p.name + ['='] + p.value;
    JoinSplit(p.value, '=');
    assert ([p.name] + Split(p.value, '='))[1..] == Split(p.value, '=');
  }

  lemma {:induction false} ParsePiecesOfPieces(params: seq<Param>)
    requires forall i :: 0 <= i < |params| ==> '=' !in params[i].name
    ensures ParsePieces(Pieces(params)) == params
    decreases |params|
  {
    if params != [] {
      assert Pieces(params)[1..] == Pieces(params[1..]);
      assert '=' in Piece(params[0]);
      ParsePieceOfPiece(params[0]);
      ParsePiecesOfPieces(params[1..]);
      assert [params[0]] + params[1..] == params;
    }
  }

  /** Reading back what raw concatenation wrote gives the same parameters, in the same order. */
  lemma DecodeEncode(params: seq<Param>)
    requires Plain(params)
    ensures Decode(Encode(params)) == params
  {
    if params == [] {
      assert Split("", '&') == [""];
    } else {
      var pieces := Pieces(params);
      forall i | 0 <= i < |pieces| ensures '&' !in pieces[i] {
        assert pieces[i] == params[i].name + "=" + params[i].value;
      }
      SplitJoin(pieces, '&');
      ParsePiecesOfPieces(params);
    }
  }

  /** Raw concatenation is not safe for values holding `&`: such a value is cut at its first `&`. */
  lemma AmpersandCutsValue(name: string, head: string, tail: string)
    requires '&' !in name && '=' !in name && '&' !in head
    ensures var q := Decode(Encode([Param(name, head + "&" + tail)]));
            |q| >= 1 && q[0] == Param(name, head)
  {
    var piece := name + "=" + head;
    assert Encode([Param(name, head + "&" + tail)]) == piece + ['&'] + tail;
    assert '&' !in piece;
    SplitAfterPiece(piece, '&', tail);
    ParsePieceOfPiece(Param(name, head));
  }
}
