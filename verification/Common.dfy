/** Small vocabulary shared by every module of the model. */
module Common {

  datatype Option<+T> = None | Some(value: T)

  /** Database keys. The program draws a fresh uuid4 for every row; the model draws the next number. */
  type Id = nat

  newtype Byte = x: int | 0 <= x < 256

  type Bytes = seq<Byte>

  /** `str(uuid)` always has 36 characters, so no user id is the name of a role. */
  type UserId = s: string | |s| == 36 witness seq(36, _ => '0')

  /** What SQLAlchemy's `scalar_one_or_none` can do: nothing, one row, or MultipleResultsFound. */
  datatype Single<+T> = NoRow | OneRow(row: T) | ManyRows

  ghost function ScalarOneOrNone<T(!new)>(matches: set<T>): (r: Single<T>)
    ensures r.NoRow? <==> matches == {}
    ensures r.OneRow? ==> matches == {r.row}
    ensures r.ManyRows? <==> exists x, y :: x in matches && y in matches && x != y
  {
    if matches == {} then NoRow
    else
      var x :| x in matches;
      if matches == {x} then OneRow(x)
      else
        assert !(matches <= {x});
        ManyRows
  }

  predicate Distinct<T(==)>(s: seq<T>) {
    forall i, j :: 0 <= i < j < |s| ==> s[i] != s[j]
  }

  /** Lower case of an ASCII letter; other characters stay. */
  function LowerChar(c: char): char {
    if 'A' <= c <= 'Z' then c - 'A' + 'a' else c
  }
}
