/**
 * The SOP checklist screen (components/SOPManager.tsx): a fixed seed of six tasks,
 * a single local-storage slot holding the whole list, a toggle that flips one task's
 * completion flag and persists the list, an integer progress percentage, and the
 * grouping of tasks under four fixed categories.
 *
 * JSON serialisation of the slot is modelled as the identity: the slot holds the list itself.
 */
module Checklist {
  import opened Wrappers

  /** The four categories of `SOPTask` (types.ts), in the order the screen displays them. */
  datatype Category = Basics | Content | Engagement | Advanced

  /** The Arabic label the source uses for each category. */
  function Label(c: Category): string {
    match c
    case Basics => "أساسيات"
    case Content => "محتوى"
    case Engagement => "تفاعل"
    case Advanced => "متقدم"
  }

  /** The four labels are distinct, so comparing labels, as the screen does, is comparing categories. */
  lemma LabelInjective()
    ensures forall a, b :: Label(a) == Label(b) ==> a == b
  {
    forall a, b | Label(a) == Label(b) ensures a == b {
      assert Label(a)[1] == Label(b)[1];
    }
  }

  /** The display order of the category groups. */
  const DisplayOrder: seq<Category> := [Basics, Content, Engagement, Advanced]

  /** One checklist item: the `SOPTask` record. */
  datatype Task = Task(id: string, category: Category, title: string, description: string, completed: bool)

  /** `INITIAL_TASKS`: the canonical seed list. */
  function Seed(): seq<Task> {
    [ Task("1", Basics, "تأكيد ملكية النشاط", "تأكد من طلب كود التحقق من جوجل وتفعيل حسابك رسمياً.", false),
      Task("2", Basics, "تحديث ساعات العمل", "أضف ساعات العمل بدقة، بما في ذلك أوقات الاستراحة وأيام العطل.", false),
      Task("3", Content, "رفع 10 صور احترافية", "الصور الواضحة تزيد التفاعل بنسبة 35% في السوق العراقي.", false),
      Task("4", Content, "كتابة وصف SEO", "استخدم كلمات يبحث عنها العراقيون (مثلاً: أفضل مطعم في المنصور).", false),
      Task("5", Engagement, "الرد على كافة التقييمات", "استخدم \"مولد الردود\" للرد على الزبائن فوراً وبلهجة عراقية محببة.", false),
      Task("6", Advanced, "إضافة المنتجات والخدمات", "حول صفحتك إلى متجر متكامل يعرض ما تقدمه مع الأسعار.", false) ]
  }

  /** The seed has six tasks with the distinct ids "1".."6", none of them completed. */
  lemma SeedShape()
    ensures |Seed()| == 6
    ensures forall k :: 0 <= k < 6 ==> Seed()[k].id == [('1' as int + k) as char]
    ensures forall k, m :: 0 <= k < m < |Seed()| ==> Seed()[k].id != Seed()[m].id
    ensures forall k :: 0 <= k < |Seed()| ==> !Seed()[k].completed
  {
  }

  /** What the load effect puts on screen for a given slot: the persisted list, else the seed. */
  function Loaded(saved: Option<seq<Task>>): seq<Task> {
    saved.GetOr(Seed())
  }

  /** The `map` callback of `toggleTask`. */
  function Flip(t: Task, id: string): Task {
    if t.id == id then t.(completed := !t.completed) else t
  }

  /** The list `toggleTask(id)` computes. */
  function Toggled(ts: seq<Task>, id: string): (r: seq<Task>)
    ensures |r| == |ts|
    ensures forall k :: 0 <= k < |r| ==>
              && r[k].id == ts[k].id && r[k].category == ts[k].category
              && r[k].title == ts[k].title && r[k].description == ts[k].description
              && r[k].completed == (if ts[k].id == id then !ts[k].completed else ts[k].completed)
  {
    seq(|ts|, k requires 0 <= k < |ts| => Flip(ts[k], id))
  }

  /** Toggling the same id twice restores the list. */
  lemma ToggledTwice(ts: seq<Task>, id: string)
    ensures Toggled(Toggled(ts, id), id) == ts
  {
    var r := Toggled(Toggled(ts, id), id);
    forall k | 0 <= k < |ts| ensures r[k] == ts[k] {
    }
  }

  /** Toggling an id that no task carries leaves the list as it was. */
  lemma ToggledUnknown(ts: seq<Task>, id: string)
    requires forall t :: t in ts ==> t.id != id
    ensures Toggled(ts, id) == ts
  {
    var r := Toggled(ts, id);
    forall k | 0 <= k < |ts| ensures r[k] == ts[k] {
      assert ts[k] in ts;
    }
  }

  /** `tasks.filter(t => t.completed).length`. */
  function CompletedCount(ts: seq<Task>): (c: nat)
    ensures c <= |ts|
    ensures c == 0 <==> forall t :: t in ts ==> !t.completed
    ensures c == |ts| <==> forall t :: t in ts ==> t.completed
  {
    if ts == [] then 0
    else (if ts[0].completed then 1 else 0) + CompletedCount(ts[1..])
  }

  /** The count adds up over concatenation; with the contract on one-task lists, this pins
      `CompletedCount` to the number of completed tasks. */
  lemma {:induction false} CompletedCountConcat(a: seq<Task>, b: seq<Task>)
    ensures CompletedCount(a + b) == CompletedCount(a) + CompletedCount(b)
  {
    if a != [] {
      assert (a + b)[0] == a[0] && (a + b)[1..] == a[1..] + b;
      CompletedCountConcat(a[1..], b);
    } else {
      assert a + b == b;
    }
  }

  /** The `progress` expression, `Math.round(completed / total * 100) || 0`, in integers:
      round half up of 100·c/n is floor((200·c + n) / (2·n)); 0/0 is NaN, which `|| 0` turns into 0. */
  function PercentDone(ts: seq<Task>): (p: nat)
    ensures p <= 100
    ensures ts == [] ==> p == 0
    ensures ts != [] ==> 2 * |ts| * p <= 200 * CompletedCount(ts) + |ts| < 2 * |ts| * p + 2 * |ts|
  {
    var n, c := |ts|, CompletedCount(ts);
    if n == 0 then 0
    else
      var p := (200 * c + n) / (2 * n);
      RoundedPercentBounded(c, n, p);
      p
  }

  /** Helper for `PercentDone`: the rounded share of `c` in `n` is at most 100 when `c <= n`,
      and it is the quotient of the rounding division. */
  lemma RoundedPercentBounded(c: nat, n: nat, p: int)
    requires 0 < n && c <= n && p == (200 * c + n) / (2 * n)
    ensures 0 <= p <= 100
    ensures 2 * n * p <= 200 * c + n < 2 * n * p + 2 * n
  {
    var d, x := 2 * n, 200 * c + n;
    var r := x % d;
    assert d * p + r == x && 0 <= r < d;
    assert d * (p + 1) == d * p + d;
    assert x < d * 101;
    MulCancelLt(d, p, 101);
    MulCancelLt(d, -1, p + 1);
  }

  /** Cancelling a non-negative factor from a strict inequality between products. */
  lemma MulCancelLt(a: nat, b: int, c: int)
    requires a * b < a * c
    ensures b < c
  {
    assert a * c - a * b == a * (c - b);
  }

  /** The percentage is the nearest integer to 100·c/n (halves rounded up): any integer within
      half a point below or strictly less than half a point above 100·c/n is the one computed. */
  lemma PercentDoneIsNearest(ts: seq<Task>, q: int)
    requires ts != []
    requires 2 * |ts| * q <= 200 * CompletedCount(ts) + |ts| < 2 * |ts| * q + 2 * |ts|
    ensures q == PercentDone(ts)
  {
    var n, c, p := |ts|, CompletedCount(ts), PercentDone(ts);
    var d, x := 2 * n, 200 * c + n;
    QuotientUnique(d, x, p, q);
  }

  /** Two integers whose multiples by `d` both bracket `x` are equal. */
  lemma QuotientUnique(d: nat, x: int, p: int, q: int)
    requires d * p <= x < d * p + d
    requires d * q <= x < d * q + d
    ensures p == q
  {
    assert d * (p + 1) == d * p + d && d * (q + 1) == d * q + d;
    MulCancelLt(d, p, q + 1);
    MulCancelLt(d, q, p + 1);
  }

  /** `tasks.filter(t => t.category === cat)`: the tasks shown in the group of `cat`. */
  function InCategory(ts: seq<Task>, cat: Category): (r: seq<Task>)
    ensures |r| <= |ts|
    ensures forall t :: t in r <==> t in ts && t.category == cat
  {
    if ts == [] then []
    else if ts[0].category == cat then [ts[0]] + InCategory(ts[1..], cat)
    else InCategory(ts[1..], cat)
  }

  /** The rendered groups: for each label of `DisplayOrder`, the tasks whose category has that
      label, as `tasks.filter(t => t.category === cat)` selects them. */
  function Groups(ts: seq<Task>): (r: seq<(string, seq<Task>)>)
    ensures |r| == |DisplayOrder|
    ensures forall k :: 0 <= k < |r| ==> r[k].0 == Label(DisplayOrder[k])
    ensures forall k, t :: 0 <= k < |r| && t in r[k].1 ==> t in ts
    ensures forall k, t :: 0 <= k < |r| && t in ts ==> (t in r[k].1 <==> Label(t.category) == r[k].0)
  {
    LabelInjective();
    seq(|DisplayOrder|, k requires 0 <= k < |DisplayOrder| => (Label(DisplayOrder[k]), InCategory(ts, DisplayOrder[k])))
  }

  /** Filtering by category distributes over concatenation, so every group keeps the list's order. */
  lemma {:induction false} InCategoryConcat(a: seq<Task>, b: seq<Task>, cat: Category)
    ensures InCategory(a + b, cat) == InCategory(a, cat) + InCategory(b, cat)
  {
    if a != [] {
      assert (a + b)[0] == a[0] && (a + b)[1..] == a[1..] + b;
      InCategoryConcat(a[1..], b, cat);
    } else {
      assert a + b == b;
    }
  }

  /** The four groups together show every task exactly as often as it occurs in the list. */
  lemma {:induction false} GroupsPartition(ts: seq<Task>)
    ensures multiset(InCategory(ts, Basics)) + multiset(InCategory(ts, Content))
          + multiset(InCategory(ts, Engagement)) + multiset(InCategory(ts, Advanced)) == multiset(ts)
    ensures |InCategory(ts, Basics)| + |InCategory(ts, Content)|
          + |InCategory(ts, Engagement)| + |InCategory(ts, Advanced)| == |ts|
  {
    if ts != [] {
      GroupsPartition(ts[1..]);
      assert ts == [ts[0]] + ts[1..];
    }
  }

  /** A task appears in the group of its own category and in no other group. */
  lemma GroupOfTask(ts: seq<Task>, t: Task, k: nat)
    requires t in ts && k < |DisplayOrder|
    ensures t in Groups(ts)[k].1 <==> DisplayOrder[k] == t.category
  {
    LabelInjective();
  }

  /**
   * The browser's local storage, restricted to the one key the core uses, `rankly_sop_tasks`.
   * `sopTasks` is `None` when the key is absent.
   */
  class LocalStorage {
    var sopTasks: Option<seq<Task>>

    constructor (saved: Option<seq<Task>>)
      ensures sopTasks == saved
    {
      sopTasks := saved;
    }

    /** `localStorage.setItem('rankly_sop_tasks', JSON.stringify(ts))`. */
    method SetItem(ts: seq<Task>)
      modifies this
      ensures sopTasks == Some(ts)
    {
      sopTasks := Some(ts);
    }

    /** `localStorage.removeItem('rankly_sop_tasks')`. */
    method RemoveItem()
      modifies this
      ensures sopTasks == None
    {
      sopTasks := None;
    }
  }

  /** The SOPManager component: its `tasks` state and the storage it persists to. */
  class ChecklistManager {
    var tasks: seq<Task>
    const storage: LocalStorage

    /** Mounting: `useState([])`. */
    constructor (storage: LocalStorage)
      ensures this.storage == storage && tasks == []
    {
      this.storage := storage;
      tasks := [];
    }

    /** The load effect: the persisted list if the slot is present, else the seed.
        The slot itself is only read. */
    method Load()
      modifies this
      ensures tasks == Loaded(storage.sopTasks)
      ensures old(storage.sopTasks) == Some(tasks) || (old(storage.sopTasks) == None && tasks == Seed())
      ensures unchanged(storage)
    {
      var saved := storage.sopTasks;
      match saved {
        case Some(ts) => tasks := ts;
        case None => tasks := Seed();
      }
    }

    /** `toggleTask(id)`: flip the matching task(s) and persist the whole new list. */
    method ToggleTask(id: string)
      modifies this, storage
      ensures tasks == Toggled(old(tasks), id)
      ensures storage.sopTasks == Some(tasks)
    {
      var newTasks := Toggled(tasks, id);
      tasks := newTasks;
      storage.SetItem(newTasks);
    }
  }

  /** A toggle survives a remount: a fresh manager over the same storage loads the toggled list. */
  method ToggleThenRemount(m: ChecklistManager, id: string) returns (fresh_m: ChecklistManager)
    modifies m, m.storage
    ensures fresh(fresh_m) && fresh_m.storage == m.storage
    ensures fresh_m.tasks == Toggled(old(m.tasks), id) == m.tasks
  {
    m.ToggleTask(id);
    fresh_m := new ChecklistManager(m.storage);
    fresh_m.Load();
  }
}
