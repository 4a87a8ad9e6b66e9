/**
 * The business registry screen (components/BusinessManager.tsx): the fetched list, the
 * guarded add that prepends the inserted row and resets the form, the delete that filters
 * the list on success, and the form fields with their defaults.
 * Gateway answers arrive as parameters; each handler is one atomic step.
 */
module Businesses {
  import opened Wrappers

  /** The `Business` record (types.ts). */
  datatype Business = Business(id: string, userId: string, businessName: string, city: string, score: int, createdAt: string)

  /** The row `handleAdd` asks the gateway to insert. */
  datatype NewBusiness = NewBusiness(businessName: string, city: string, score: int, userId: string)

  /** The gateway's answer to a delete. */
  datatype DeleteReply = Deleted | DeleteFailed(message: string)

  /** The score the form starts with and returns to. */
  const DefaultScore: int := 50
  const MinScore: int := 0
  const MaxScore: int := 100

  /** The range control's value for a pointer position: it never leaves `[MinScore, MaxScore]`. */
  function SliderValue(position: int): (v: int)
    ensures MinScore <= v <= MaxScore
    ensures MinScore <= position <= MaxScore ==> v == position
    ensures position < MinScore ==> v == MinScore
    ensures position > MaxScore ==> v == MaxScore
  {
    if position < MinScore then MinScore else if position > MaxScore then MaxScore else position
  }

  /** `businesses.filter(b => b.id !== id)`. */
  function Without(bs: seq<Business>, id: string): (r: seq<Business>)
    ensures |r| <= |bs|
    ensures forall b :: b in r <==> b in bs && b.id != id
  {
    if bs == [] then []
    else if bs[0].id == id then Without(bs[1..], id)
    else [bs[0]] + Without(bs[1..], id)
  }

  /** The filter distributes over concatenation, so the kept rows stay in their original order. */
  lemma {:induction false} WithoutConcat(a: seq<Business>, b: seq<Business>, id: string)
    ensures Without(a + b, id) == Without(a, id) + Without(b, id)
  {
    if a == [] {
      assert a + b == b;
    } else {
      assert (a + b)[0] == a[0] && (a + b)[1..] == a[1..] + b;
      WithoutConcat(a[1..], b, id);
    }
  }

  /** Deleting an id no row carries keeps the list as it is. */
  lemma {:induction false} WithoutAbsent(bs: seq<Business>, id: string)
    requires forall b :: b in bs ==> b.id != id
    ensures Without(bs, id) == bs
  {
    if bs != [] {
      assert bs[0] in bs;
      assert forall b :: b in bs[1..] ==> b in bs;
      WithoutAbsent(bs[1..], id);
      assert [bs[0]] + bs[1..] == bs;
    }
  }

  /** Deleting twice is deleting once. */
  lemma WithoutIdempotent(bs: seq<Business>, id: string)
    ensures Without(Without(bs, id), id) == Without(bs, id)
  {
    WithoutAbsent(Without(bs, id), id);
  }

  /** Adding a row with a new id and then deleting that id gives back the list before the add. */
  lemma AddThenDelete(row: Business, bs: seq<Business>)
    requires forall b :: b in bs ==> b.id != row.id
    ensures Without([row] + bs, row.id) == bs
  {
    assert ([row] + bs)[1..] == bs;
    WithoutAbsent(bs, row.id);
  }

  /** The list as the source builds it after an insert answered with `rows`: `[data[0], ...businesses]`,
      where `None` stands for JavaScript's `undefined`. */
  function AddedAsWritten(rows: seq<Business>, bs: seq<Business>): seq<Option<Business>> {
    [if |rows| > 0 then Some(rows[0]) else None] + seq(|bs|, k requires 0 <= k < |bs| => Some(bs[k]))
  }

  /** An insert answered with an empty row list and no error puts `undefined` at the head of the
      source's list, where rendering reads `b.business_name[0]` from it. */
  lemma EmptyInsertLeavesHole(bs: seq<Business>)
    ensures |AddedAsWritten([], bs)| == |bs| + 1
    ensures AddedAsWritten([], bs)[0] == None
  {
  }

  /** The list after an insert answered with `rows`, taking only a returned row: the row first,
      then the old list; unchanged when no row came back. */
  function Added(rows: seq<Business>, bs: seq<Business>): (r: seq<Business>)
    ensures |rows| > 0 ==> |r| == |bs| + 1 && r[0] == rows[0] && r[1..] == bs
    ensures |rows| == 0 ==> r == bs
  {
    if |rows| > 0 then [rows[0]] + bs else bs
  }

  /** Where the source's list holds a row, the model's list holds the same: the two agree on every
      insert that returns at least one row. */
  lemma AddedMatchesAsWritten(rows: seq<Business>, bs: seq<Business>)
    requires |rows| > 0
    ensures |AddedAsWritten(rows, bs)| == |Added(rows, bs)|
    ensures forall k :: 0 <= k < |Added(rows, bs)| ==> AddedAsWritten(rows, bs)[k] == Some(Added(rows, bs)[k])
  {
    var w, a := AddedAsWritten(rows, bs), Added(rows, bs);
    var tail := seq(|bs|, k requires 0 <= k < |bs| => Some(bs[k]));
    assert w == [Some(rows[0])] + tail;
    forall k | 0 <= k < |a| ensures w[k] == Some(a[k]) {
      if k > 0 {
        assert w[k] == tail[k - 1];
        assert a[k] == a[1..][k - 1];
      }
    }
  }

  /** The BusinessManager component for the signed-in user `userId`. */
  class BusinessManager {
    var businesses: seq<Business>
    var loading: bool
    var showForm: bool
    var name: string
    var city: string
    var score: int
    const userId: string

    /** The score field always holds a value the slider can show. */
    ghost predicate Valid()
      reads this
    {
      MinScore <= score <= MaxScore
    }

    /** Mounting: empty list, loading, form hidden and at its defaults. */
    constructor (userId: string)
      ensures Valid() && this.userId == userId
      ensures businesses == [] && loading && !showForm
      ensures name == "" && city == "" && score == DefaultScore
    {
      this.userId := userId;
      businesses, loading, showForm := [], true, false;
      name, city, score := "", "", DefaultScore;
    }

    /** `fetchBusinesses` with the rows the gateway returned (`None` when it returned no data). */
    method Fetch(data: Option<seq<Business>>)
      requires Valid()
      modifies this
      ensures Valid() && !loading
      ensures businesses == data.GetOr(old(businesses))
      ensures showForm == old(showForm) && name == old(name) && city == old(city) && score == old(score)
    {
      if data.Some? {
        businesses := data.value;
      }
      loading := false;
    }

    /** The "new business" button. */
    method ToggleForm()
      modifies this
      ensures showForm == !old(showForm)
      ensures businesses == old(businesses) && loading == old(loading)
      ensures name == old(name) && city == old(city) && score == old(score)
    {
      showForm := !showForm;
    }

    method EditName(s: string)
      modifies this
      ensures name == s
      ensures businesses == old(businesses) && loading == old(loading) && showForm == old(showForm)
      ensures city == old(city) && score == old(score)
    {
      name := s;
    }

    method EditCity(s: string)
      modifies this
      ensures city == s
      ensures businesses == old(businesses) && loading == old(loading) && showForm == old(showForm)
      ensures name == old(name) && score == old(score)
    {
      city := s;
    }

    /** Moving the range control. */
    method SlideScore(position: int)
      modifies this
      ensures Valid() && score == SliderValue(position)
      ensures businesses == old(businesses) && loading == old(loading) && showForm == old(showForm)
      ensures name == old(name) && city == old(city)
    {
      score := SliderValue(position);
    }

    /** `handleAdd` up to the gateway call: with an empty name or city nothing is sent;
        otherwise the row to insert. */
    method AddRequest() returns (sent: Option<NewBusiness>)
      ensures sent == if name == "" || city == "" then None
                      else Some(NewBusiness(name, city, score, userId))
    {
      if name == "" || city == "" {
        return None;
      }
      sent := Some(NewBusiness(name, city, score, userId));
    }

    /** `handleAdd` after the gateway answered with `data` (`None` for no data). A returned row goes
        to the head of the list and the form is reset and hidden; otherwise nothing changes. */
    method FinishAdd(data: Option<seq<Business>>)
      requires Valid()
      modifies this
      ensures Valid()
      ensures var added := data.Some? && |data.value| > 0;
              && businesses == (if added then Added(data.value, old(businesses)) else old(businesses))
              && (added ==> name == "" && city == "" && score == DefaultScore && !showForm)
              && (!added ==> name == old(name) && city == old(city) && score == old(score) && showForm == old(showForm))
      ensures loading == old(loading)
    {
      if data.Some? && |data.value| > 0 {
        businesses := Added(data.value, businesses);
        name, city, score := "", "", DefaultScore;
        showForm := false;
      }
    }

    /** `handleDelete(id)` with the gateway's answer: the rows with that id leave the list only
        when the delete succeeded. */
    method Delete(id: string, reply: DeleteReply)
      modifies this
      ensures businesses == if reply.Deleted? then Without(old(businesses), id) else old(businesses)
      ensures loading == old(loading) && showForm == old(showForm)
      ensures name == old(name) && city == old(city) && score == old(score)
    {
      if reply.Deleted? {
        businesses := Without(businesses, id);
      }
    }
  }
}
