// The dashboard script (static/script.js): the two rendered transaction lists,
// the header totals, the setup modal, the two chart handles (myChart, the
// income/expense doughnut, and weeklyChartInst, the seven-bar spending chart),
// the refresh step fetchData and the delete action deleteTx.
//
// Each step is a pure transition on PageState (ChartUpdated, WeeklyUpdated,
// Listed, Fetched); class Page holds the script's mutable variables and its
// methods are proved to perform exactly those transitions.

module Dashboard {
  import opened Records
  import Icons
  import Weekly

  /** One element of a rendered list: the "No transactions yet" placeholder, or
      the item of one transaction (icon, description, signed amount, date and
      the id its delete button passes to deleteTx). */
  datatype Entry =
    | Placeholder
    | Item(id: nat, icon: string, description: string, sign: char, amount: int, timestamp: int)

  datatype ListTarget = HomeList | StatsList

  datatype Canvas = ExpenseCanvas | WeeklyCanvas

  /** A Chart.js instance; `serial` tells apart instances with equal data. */
  datatype Chart = Chart(serial: nat, canvas: Canvas, labels: seq<string>, data: seq<int>)

  datatype Location = DashboardPage | LoginPage

  /** Which optional elements the page has (getElementById returned non-null). */
  datatype Elements = Elements(
    homeList: bool, statsList: bool, expenseCanvas: bool, weeklyCanvas: bool,
    balanceText: bool, incomeText: bool, expenseText: bool)

  /** The parsed body of GET /api/transactions; a field is None when the JSON
      body lacks it. */
  datatype Body = Body(transactions: Option<seq<Tx>>, summary: Option<Summary>)

  /** What fetch('/api/transactions') produced: a rejected request, or a
      response whose body is None when res.json() fails. */
  datatype Reply = NetworkFailure | Response(status: int, body: Option<Body>)

  /** Everything on the page that the script changes. `live` is the set of chart
      instances created and not yet destroyed; `created` counts creations. */
  datatype PageState = PageState(
    homeList: seq<Entry>, statsList: seq<Entry>, setupModalActive: bool,
    balanceShown: Option<int>, incomeShown: Option<int>, expenseShown: Option<int>,
    myChart: Option<Chart>, weeklyChartInst: Option<Chart>, live: set<Chart>, created: nat,
    location: Location)

  const InitialState: PageState :=
    PageState([], [], false, None, None, None, None, None, {}, 0, DashboardPage)

  // ---------------------------------------------------------------- lists

  /** The item of one transaction. */
  function EntryOf(t: Tx): (e: Entry)
    ensures e.Item? && e.id == t.id && e.description == t.description && e.amount == t.amount
    ensures e.icon == Icons.GetIcon(t.description)
    ensures e.sign == '-' <==> t.kind == Expense
    ensures e.sign == '+' <==> t.kind != Expense
  {
    Item(t.id, Icons.GetIcon(t.description), t.description, if t.kind == Expense then '-' else '+', t.amount, t.timestamp)
  }

  function Items(txs: seq<Tx>): seq<Entry>
  {
    seq(|txs|, i requires 0 <= i < |txs| => EntryOf(txs[i]))
  }

  /** One more transaction renders one more item at the end. */
  lemma ItemsSnoc(txs: seq<Tx>, i: nat)
    requires i < |txs|
    ensures Items(txs[..i + 1]) == Items(txs[..i]) + [EntryOf(txs[i])]
  {
    assert txs[..i + 1][i] == txs[i];
    assert forall k :: 0 <= k < i ==> txs[..i + 1][k] == txs[..i][k];
  }

  /** What renderList leaves in a list element: the placeholder alone for an
      empty list, otherwise one item per transaction in input order, signed '-'
      exactly for expenses, with the transaction's icon and its id. */
  function ListView(txs: seq<Tx>): (entries: seq<Entry>)
    ensures txs == [] <==> entries == [Placeholder]
    ensures txs != [] ==> |entries| == |txs|
    ensures txs != [] ==> forall i :: 0 <= i < |txs| ==>
              && entries[i].Item?
              && entries[i].id == txs[i].id
              && entries[i].description == txs[i].description
              && entries[i].amount == txs[i].amount
              && entries[i].icon == Icons.GetIcon(txs[i].description)
              && (entries[i].sign == '-' <==> txs[i].kind == Expense)
              && (entries[i].sign == '+' <==> txs[i].kind != Expense)
  {
    if txs == [] then [Placeholder]
    else
      assert Items(txs)[0].Item?;
      Items(txs)
  }

  function SetList(s: PageState, target: ListTarget, entries: seq<Entry>): PageState
  {
    if target == HomeList then s.(homeList := entries) else s.(statsList := entries)
  }

  function HasList(el: Elements, target: ListTarget): bool
  {
    if target == HomeList then el.homeList else el.statsList
  }

  /** renderList(listEl, transactions): a missing element changes nothing;
      otherwise the element's content is replaced by ListView(transactions). */
  function Listed(s: PageState, el: Elements, target: ListTarget, txs: seq<Tx>): (r: PageState)
    ensures r == s.(homeList := r.homeList, statsList := r.statsList)
    ensures !HasList(el, target) ==> r == s
    ensures HasList(el, target) && target == HomeList ==> r.homeList == ListView(txs) && r.statsList == s.statsList
    ensures HasList(el, target) && target == StatsList ==> r.statsList == ListView(txs) && r.homeList == s.homeList
  {
    if !HasList(el, target) then s else SetList(s, target, ListView(txs))
  }

  // ---------------------------------------------------------------- charts

  /** The instances live on one canvas. */
  function LiveOn(s: PageState, canvas: Canvas): set<Chart>
  {
    set c | c in s.live && c.canvas == canvas
  }

  /** The handle discipline: every live instance is the one its handle names,
      handles name instances of their own canvas, serials are below `created`. */
  predicate ChartsValid(s: PageState)
  {
    && (forall c :: c in s.live ==> c.serial < s.created)
    && (forall c :: c in s.live && c.canvas == ExpenseCanvas ==> s.myChart == Some(c))
    && (forall c :: c in s.live && c.canvas == WeeklyCanvas ==> s.weeklyChartInst == Some(c))
    && (s.myChart.Some? ==> s.myChart.value.canvas == ExpenseCanvas && s.myChart.value.serial < s.created)
    && (s.weeklyChartInst.Some? ==> s.weeklyChartInst.value.canvas == WeeklyCanvas && s.weeklyChartInst.value.serial < s.created)
  }

  /** `if (handle) handle.destroy()`. */
  function Destroyed(live: set<Chart>, handle: Option<Chart>): (r: set<Chart>)
    ensures r <= live
    ensures handle.Some? ==> handle.value !in r
    ensures forall c :: c in live && handle != Some(c) ==> c in r
  {
    if handle.Some? then live - {handle.value} else live
  }

  /** updateChart(income, expense): no canvas, no change; otherwise the old
      doughnut is destroyed and, unless both totals are 0, a new one holding
      [income, expense] is created and becomes myChart. When both are 0, myChart
      keeps naming the destroyed instance. */
  function ChartUpdated(s: PageState, el: Elements, income: int, expense: int): (r: PageState)
    ensures r == s.(myChart := r.myChart, live := r.live, created := r.created)
    ensures !el.expenseCanvas ==> r == s
    ensures ChartsValid(s) ==> ChartsValid(r)
  {
    if !el.expenseCanvas then s
    else
      var live := Destroyed(s.live, s.myChart);
      if income == 0 && expense == 0 then s.(live := live)
      else
        var c := Chart(s.created, ExpenseCanvas, ["Income", "Expense"], [income, expense]);
        s.(myChart := Some(c), live := live + {c}, created := s.created + 1)
  }

  /** updateWeeklyChart(transactions): no canvas, no change; otherwise the old bar
      chart is destroyed and exactly one new one is created with the seven
      labels and values of the aggregation, zero bars included. */
  function WeeklyUpdated(s: PageState, el: Elements, txs: seq<Tx>, today: int, localDay: int -> int): (r: PageState)
    ensures r == s.(weeklyChartInst := r.weeklyChartInst, live := r.live, created := r.created)
    ensures !el.weeklyCanvas ==> r == s
    ensures ChartsValid(s) ==> ChartsValid(r)
  {
    if !el.weeklyCanvas then s
    else
      var live := Destroyed(s.live, s.weeklyChartInst);
      var c := Chart(s.created, WeeklyCanvas, Weekly.WeekLabels(today), Weekly.WeekValues(txs, today, localDay));
      s.(weeklyChartInst := Some(c), live := live + {c}, created := s.created + 1)
  }

  /** The handle of one canvas. */
  function Handle(s: PageState, canvas: Canvas): Option<Chart>
  {
    if canvas == ExpenseCanvas then s.myChart else s.weeklyChartInst
  }

  /** The data a canvas displays: its handle's, if that instance is live. */
  function ShownData(s: PageState, canvas: Canvas): Option<seq<int>>
  {
    var h := Handle(s, canvas);
    if h.Some? && h.value in s.live then Some(h.value.data) else None
  }

  /** Under the handle discipline each canvas carries at most one live chart,
      the one its handle names, so ShownData is all a canvas displays. */
  lemma AtMostOneLive(s: PageState, canvas: Canvas)
    requires ChartsValid(s)
    ensures |LiveOn(s, canvas)| <= 1
    ensures var h := Handle(s, canvas);
            LiveOn(s, canvas) == if h.Some? && h.value in s.live then {h.value} else {}
  {
    var h := Handle(s, canvas);
    if h.None? {
      assert LiveOn(s, canvas) == {};
    } else {
      assert LiveOn(s, canvas) <= {h.value};
      if h.value in s.live {
        assert h.value in LiveOn(s, canvas);
        assert LiveOn(s, canvas) == {h.value};
      } else {
        assert LiveOn(s, canvas) == {};
      }
    }
  }

  /** After updateChart the doughnut canvas carries nothing when both totals are
      0 and exactly the new [income, expense] chart otherwise; the bar canvas is
      untouched. */
  lemma ChartUpdatedLive(s: PageState, el: Elements, income: int, expense: int)
    requires ChartsValid(s) && el.expenseCanvas
    ensures LiveOn(ChartUpdated(s, el, income, expense), ExpenseCanvas)
         == if income == 0 && expense == 0 then {}
            else {Chart(s.created, ExpenseCanvas, ["Income", "Expense"], [income, expense])}
    ensures LiveOn(ChartUpdated(s, el, income, expense), WeeklyCanvas) == LiveOn(s, WeeklyCanvas)
  {
    var r := ChartUpdated(s, el, income, expense);
    forall c | c in r.live && c.canvas == ExpenseCanvas
      ensures income != 0 || expense != 0
      ensures c == Chart(s.created, ExpenseCanvas, ["Income", "Expense"], [income, expense])
    {
      if c in s.live {
        assert false;
      }
    }
  }

  /** The quirk of updateChart with two zero totals: the old doughnut is
      destroyed, yet myChart still names it. */
  lemma ZeroTotalsLeaveStaleHandle(s: PageState, el: Elements)
    requires el.expenseCanvas
    ensures ChartUpdated(s, el, 0, 0).myChart == s.myChart
    ensures s.myChart.Some? ==> s.myChart.value !in ChartUpdated(s, el, 0, 0).live
  {
  }

  /** After updateWeeklyChart the bar canvas carries exactly one chart, with seven
      labels and seven values, whatever the transactions; the doughnut canvas is
      untouched. */
  lemma WeeklyUpdatedLive(s: PageState, el: Elements, txs: seq<Tx>, today: int, localDay: int -> int)
    requires ChartsValid(s) && el.weeklyCanvas
    ensures LiveOn(WeeklyUpdated(s, el, txs, today, localDay), WeeklyCanvas)
         == {Chart(s.created, WeeklyCanvas, Weekly.WeekLabels(today), Weekly.WeekValues(txs, today, localDay))}
    ensures LiveOn(WeeklyUpdated(s, el, txs, today, localDay), ExpenseCanvas) == LiveOn(s, ExpenseCanvas)
  {
    var r := WeeklyUpdated(s, el, txs, today, localDay);
    forall c | c in r.live && c.canvas == WeeklyCanvas
      ensures c == Chart(s.created, WeeklyCanvas, Weekly.WeekLabels(today), Weekly.WeekValues(txs, today, localDay))
    {
      if c in s.live {
        assert false;
      }
    }
  }

  // ---------------------------------------------------------------- refresh

  /** The reply carries a transaction list (neither a 401 nor an unreadable body). */
  predicate CarriesList(reply: Reply)
  {
    reply.Response? && reply.status != 401 && reply.body.Some? && reply.body.value.transactions.Some?
  }

  /** The reply carries everything fetchData renders. */
  predicate Complete(reply: Reply)
  {
    CarriesList(reply) && reply.body.value.summary.Some?
  }

  /** The header totals: each present element shows its part of the summary. */
  function HeaderShown(s: PageState, el: Elements, sum: Summary): (r: PageState)
    ensures r == s.(balanceShown := r.balanceShown, incomeShown := r.incomeShown, expenseShown := r.expenseShown)
    ensures el.balanceText ==> r.balanceShown == Some(sum.balance)
    ensures el.incomeText ==> r.incomeShown == Some(sum.income)
    ensures el.expenseText ==> r.expenseShown == Some(sum.expense)
    ensures !el.balanceText ==> r.balanceShown == s.balanceShown
    ensures !el.incomeText ==> r.incomeShown == s.incomeShown
    ensures !el.expenseText ==> r.expenseShown == s.expenseShown
  {
    s.(balanceShown := if el.balanceText then Some(sum.balance) else s.balanceShown,
       incomeShown := if el.incomeText then Some(sum.income) else s.incomeShown,
       expenseShown := if el.expenseText then Some(sum.expense) else s.expenseShown)
  }

  /** The part of fetchData after the summary is read: header, both lists and
      both charts, all from the same transaction list and summary. */
  function Rendered(s: PageState, el: Elements, txs: seq<Tx>, sum: Summary, today: int, localDay: int -> int): (r: PageState)
    ensures r.setupModalActive == s.setupModalActive && r.location == s.location
  {
    var s1 := HeaderShown(s, el, sum);
    var s2 := Listed(Listed(s1, el, HomeList, txs), el, StatsList, txs);
    WeeklyUpdated(ChartUpdated(s2, el, sum.income, sum.expense), el, txs, today, localDay)
  }

  /** fetchData() over one reply: a failed request or an unreadable body changes
      nothing; a 401 only redirects to the login page; otherwise the setup modal
      is shown exactly when the list is empty, and then, if the summary is there,
      the header totals, both lists and both charts are all fed from that one
      reply. */
  function Fetched(s: PageState, el: Elements, reply: Reply, today: int, localDay: int -> int): (r: PageState)
    ensures reply.Response? && reply.status == 401 ==> r == s.(location := LoginPage)
    ensures !(reply.Response? && reply.status == 401) && !CarriesList(reply) ==> r == s
    ensures CarriesList(reply) ==> r.setupModalActive == (|reply.body.value.transactions.value| == 0)
                                    && r.location == s.location
    ensures CarriesList(reply) && !Complete(reply)
            ==> r == s.(setupModalActive := |reply.body.value.transactions.value| == 0)
  {
    if reply.NetworkFailure? then s
    else if reply.status == 401 then s.(location := LoginPage)
    else if reply.body.None? || reply.body.value.transactions.None? then s
    else
      var txs := reply.body.value.transactions.value;
      var s1 := s.(setupModalActive := |txs| == 0);
      if reply.body.value.summary.None? then s1
      else Rendered(s1, el, txs, reply.body.value.summary.value, today, localDay)
  }

  /** A refresh keeps the chart handle discipline. */
  lemma FetchedKeepsChartsValid(s: PageState, el: Elements, reply: Reply, today: int, localDay: int -> int)
    requires ChartsValid(s)
    ensures ChartsValid(Fetched(s, el, reply, today, localDay))
  {
    if Complete(reply) {
      var txs := reply.body.value.transactions.value;
      var sum := reply.body.value.summary.value;
      var s1 := HeaderShown(s.(setupModalActive := |txs| == 0), el, sum);
      var s2 := Listed(Listed(s1, el, HomeList, txs), el, StatsList, txs);
      assert ChartsValid(s2);
    }
  }

  /** After a complete reply both lists show the same content, the rendering of
      the reply's transaction list, and the header shows the reply's summary. */
  lemma FetchedListsAgree(s: PageState, el: Elements, reply: Reply, today: int, localDay: int -> int)
    requires Complete(reply) && el.homeList && el.statsList
    ensures Fetched(s, el, reply, today, localDay).homeList == ListView(reply.body.value.transactions.value)
    ensures Fetched(s, el, reply, today, localDay).statsList == ListView(reply.body.value.transactions.value)
    ensures el.balanceText ==> Fetched(s, el, reply, today, localDay).balanceShown == Some(reply.body.value.summary.value.balance)
    ensures el.incomeText ==> Fetched(s, el, reply, today, localDay).incomeShown == Some(reply.body.value.summary.value.income)
    ensures el.expenseText ==> Fetched(s, el, reply, today, localDay).expenseShown == Some(reply.body.value.summary.value.expense)
  {
  }

  lemma RenderedCharts(s: PageState, el: Elements, txs: seq<Tx>, sum: Summary, today: int, localDay: int -> int)
    requires ChartsValid(s) && el.expenseCanvas && el.weeklyCanvas
    ensures ShownData(Rendered(s, el, txs, sum, today, localDay), ExpenseCanvas)
         == if sum.income == 0 && sum.expense == 0 then None else Some([sum.income, sum.expense])
    ensures ShownData(Rendered(s, el, txs, sum, today, localDay), WeeklyCanvas) == Some(Weekly.WeekValues(txs, today, localDay))
  {
    var s1 := HeaderShown(s, el, sum);
    var s2 := Listed(Listed(s1, el, HomeList, txs), el, StatsList, txs);
    assert s2.live == s.live && s2.myChart == s.myChart && s2.weeklyChartInst == s.weeklyChartInst && s2.created == s.created;
    var s3 := ChartUpdated(s2, el, sum.income, sum.expense);
    var s4 := WeeklyUpdated(s3, el, txs, today, localDay);
    assert s4.myChart == s3.myChart;
    if s.myChart.Some? {
      assert s.myChart.value.serial < s.created;
    }
  }

  /** After a complete reply the charts show that reply: the doughnut holds its
      summary's income and expense, or nothing when both are 0, and the bar chart
      holds the weekly aggregation of its transaction list. */
  lemma FetchedChartsShowReply(s: PageState, el: Elements, reply: Reply, today: int, localDay: int -> int)
    requires ChartsValid(s) && Complete(reply) && el.expenseCanvas && el.weeklyCanvas
    ensures var sum := reply.body.value.summary.value;
            ShownData(Fetched(s, el, reply, today, localDay), ExpenseCanvas)
              == if sum.income == 0 && sum.expense == 0 then None else Some([sum.income, sum.expense])
    ensures ShownData(Fetched(s, el, reply, today, localDay), WeeklyCanvas)
              == Some(Weekly.WeekValues(reply.body.value.transactions.value, today, localDay))
  {
    var txs := reply.body.value.transactions.value;
    RenderedCharts(s.(setupModalActive := |txs| == 0), el, txs, reply.body.value.summary.value, today, localDay);
  }

  /** Refreshing twice from the same reply renders the same lists, header and
      modal as refreshing once: each refresh is a full re-rendering. */
  lemma FetchedIdempotent(s: PageState, el: Elements, reply: Reply, today: int, localDay: int -> int)
    ensures var once := Fetched(s, el, reply, today, localDay);
            var twice := Fetched(once, el, reply, today, localDay);
            && twice.homeList == once.homeList && twice.statsList == once.statsList
            && twice.setupModalActive == once.setupModalActive
            && twice.balanceShown == once.balanceShown && twice.incomeShown == once.incomeShown
            && twice.expenseShown == once.expenseShown && twice.location == once.location
  {
  }

  /** The same holds for the charts: a second refresh from the same reply leaves
      the same data on both canvases as the first. */
  lemma FetchedChartsIdempotent(s: PageState, el: Elements, reply: Reply, today: int, localDay: int -> int)
    requires ChartsValid(s) && Complete(reply) && el.expenseCanvas && el.weeklyCanvas
    ensures var once := Fetched(s, el, reply, today, localDay);
            var twice := Fetched(once, el, reply, today, localDay);
            ShownData(twice, ExpenseCanvas) == ShownData(once, ExpenseCanvas)
            && ShownData(twice, WeeklyCanvas) == ShownData(once, WeeklyCanvas)
  {
    var once := Fetched(s, el, reply, today, localDay);
    FetchedKeepsChartsValid(s, el, reply, today, localDay);
    FetchedChartsShowReply(s, el, reply, today, localDay);
    FetchedChartsShowReply(once, el, reply, today, localDay);
  }

  // ---------------------------------------------------------------- the page

  /** The script's mutable state: its module-level chart handles and the DOM
      elements it rewrites. */
  class Page {
    const elements: Elements
    var homeList: seq<Entry>
    var statsList: seq<Entry>
    var setupModalActive: bool
    var balanceShown: Option<int>
    var incomeShown: Option<int>
    var expenseShown: Option<int>
    var myChart: Option<Chart>
    var weeklyChartInst: Option<Chart>
    var live: set<Chart>
    var created: nat
    var location: Location

    function State(): PageState
      reads this
    {
      PageState(homeList, statsList, setupModalActive, balanceShown, incomeShown, expenseShown,
                myChart, weeklyChartInst, live, created, location)
    }

    predicate Valid()
      reads this
    {
      ChartsValid(State())
    }

    constructor (elements: Elements)
      ensures this.elements == elements && State() == InitialState && Valid()
    {
      this.elements := elements;
      homeList, statsList, setupModalActive := [], [], false;
      balanceShown, incomeShown, expenseShown := None, None, None;
      myChart, weeklyChartInst, live, created := None, None, {}, 0;
      location := DashboardPage;
    }

    /** chart.destroy() */
    method Destroy(c: Chart)
      modifies this
      ensures State() == old(State()).(live := old(live) - {c})
    {
      live := live - {c};
    }

    /** new Chart(ctx, config) */
    method NewChart(canvas: Canvas, labels: seq<string>, data: seq<int>) returns (c: Chart)
      modifies this
      ensures c == Chart(old(created), canvas, labels, data)
      ensures State() == old(State()).(live := old(live) + {c}, created := old(created) + 1)
    {
      c := Chart(created, canvas, labels, data);
      live := live + {c};
      created := created + 1;
    }

    method UpdateChart(income: int, expense: int)
      requires Valid()
      modifies this
      ensures Valid()
      ensures State() == ChartUpdated(old(State()), elements, income, expense)
    {
      assert ChartsValid(ChartUpdated(State(), elements, income, expense));
      if !elements.expenseCanvas {
        return;
      }
      if myChart.Some? {
        Destroy(myChart.value);
      }
      if income == 0 && expense == 0 {
        return;
      }
      var c := NewChart(ExpenseCanvas, ["Income", "Expense"], [income, expense]);
      myChart := Some(c);
    }

    method UpdateWeeklyChart(txs: seq<Tx>, today: int, localDay: int -> int)
      requires Valid()
      modifies this
      ensures Valid()
      ensures State() == WeeklyUpdated(old(State()), elements, txs, today, localDay)
    {
      assert ChartsValid(WeeklyUpdated(State(), elements, txs, today, localDay));
      if !elements.weeklyCanvas {
        return;
      }
      var labels, values := Weekly.WeeklySeries(txs, today, localDay);
      if weeklyChartInst.Some? {
        Destroy(weeklyChartInst.value);
      }
      var c := NewChart(WeeklyCanvas, labels, values);
      weeklyChartInst := Some(c);
    }

    /** The content of one list element. */
    function ListOf(target: ListTarget): seq<Entry>
      reads this
    {
      if target == HomeList then homeList else statsList
    }

    /** Replaces the content of one list element. */
    method SetContent(target: ListTarget, entries: seq<Entry>)
      requires Valid()
      modifies this
      ensures Valid()
      ensures State() == SetList(old(State()), target, entries)
    {
      if target == HomeList { homeList := entries; } else { statsList := entries; }
    }

    /** renderList: clear the element, then either the placeholder or one
        appended item per transaction. */
    method RenderList(target: ListTarget, txs: seq<Tx>)
      requires Valid()
      modifies this
      ensures Valid()
      ensures State() == Listed(old(State()), elements, target, txs)
    {
      if !HasList(elements, target) {
        return;
      }
      SetContent(target, []);
      if |txs| == 0 {
        SetContent(target, [Placeholder]);
        return;
      }
      ghost var s0 := old(State());
      for i := 0 to |txs|
        invariant State() == SetList(s0, target, Items(txs[..i]))
      {
        var item := EntryOf(txs[i]);
        ItemsSnoc(txs, i);
        SetContent(target, ListOf(target) + [item]);
      }
      assert txs[..|txs|] == txs;
    }

    /** The header totals of fetchData. */
    method ShowHeader(summary: Summary)
      requires Valid()
      modifies this
      ensures Valid()
      ensures State() == HeaderShown(old(State()), elements, summary)
    {
      if elements.balanceText { balanceShown := Some(summary.balance); }
      if elements.incomeText { incomeShown := Some(summary.income); }
      if elements.expenseText { expenseShown := Some(summary.expense); }
    }

    /** The rendering half of fetchData: header, both lists, both charts. */
    method Render(txs: seq<Tx>, summary: Summary, today: int, localDay: int -> int)
      requires Valid()
      modifies this
      ensures Valid()
      ensures State() == Rendered(old(State()), elements, txs, summary, today, localDay)
    {
      ShowHeader(summary);
      RenderList(HomeList, txs);
      RenderList(StatsList, txs);
      UpdateChart(summary.income, summary.expense);
      UpdateWeeklyChart(txs, today, localDay);
    }

    method FetchData(reply: Reply, today: int, localDay: int -> int)
      requires Valid()
      modifies this
      ensures Valid()
      ensures State() == Fetched(old(State()), elements, reply, today, localDay)
    {
      if reply.NetworkFailure? {
        return;
      }
      if reply.status == 401 {
        location := LoginPage;
        return;
      }
      if reply.body.None? || reply.body.value.transactions.None? {
        return;
      }
      var txs := reply.body.value.transactions.value;
      if |txs| == 0 {
        setupModalActive := true;
      } else {
        setupModalActive := false;
      }
      if reply.body.value.summary.None? {
        return;
      }
      Render(txs, reply.body.value.summary.value, today, localDay);
    }

    /** deleteTx(id): `confirmed` is the user's answer to the confirmation,
        `deleteStatus` the DELETE response's status (None when the request
        failed) and `refresh` the reply the following fetchData receives. It
        returns the id whose deletion was requested and whether it refreshed. */
    method DeleteTx(id: nat, confirmed: bool, deleteStatus: Option<int>, refresh: Reply, today: int, localDay: int -> int)
      returns (requested: Option<nat>, refreshed: bool)
      requires Valid()
      modifies this
      ensures Valid()
      ensures requested == if confirmed then Some(id) else None
      ensures refreshed <==> confirmed && deleteStatus.Some? && 200 <= deleteStatus.value <= 299
      ensures State() == if refreshed then Fetched(old(State()), elements, refresh, today, localDay) else old(State())
    {
      if !confirmed {
        return None, false;
      }
      requested := Some(id);
      refreshed := deleteStatus.Some? && 200 <= deleteStatus.value <= 299;
      if refreshed {
        FetchData(refresh, today, localDay);
      }
    }
  }
}
