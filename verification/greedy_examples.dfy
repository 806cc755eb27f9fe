/** The worked examples of the allocator: the sample run of the module's own
    driver and the order-sensitivity case (capacity 5, demands 3 and 4). */
module GreedyExamples {
  import opened Records
  import opened GreedyFill

  /** Capacities 10, 8, 12 and demands 4, 6, 3, 8: every task is served, task 4 is
      split between R2 and R3, and only R3 has capacity left. */
  lemma SampleRun()
    ensures GreedyPlan([10.0, 8.0, 12.0], [4.0, 6.0, 3.0, 8.0]) ==
            Plan([Allocation(1, 1, 4.0), Allocation(2, 1, 6.0), Allocation(3, 2, 3.0),
                  Allocation(4, 2, 5.0), Allocation(4, 3, 3.0)],
                 [ResourceStatus(1, 10.0, 10.0, 0.0), ResourceStatus(2, 8.0, 8.0, 0.0),
                  ResourceStatus(3, 3.0, 12.0, 9.0)],
                 [])
  {
    SampleRunServes();
    var rs := StatusReport([10.0, 8.0, 12.0], [0.0, 0.0, 9.0]);
    assert rs == [rs[0], rs[1], rs[2]];
  }

  lemma SampleRunServes()
    ensures ServeFrom([10.0, 8.0, 12.0], [4.0, 6.0, 3.0, 8.0], 0) ==
            Outcome([0.0, 0.0, 9.0], [Allocation(1, 1, 4.0), Allocation(2, 1, 6.0), Allocation(3, 2, 3.0),
                                      Allocation(4, 2, 5.0), Allocation(4, 3, 3.0)], [])
  {
    SampleRunFills();
    SampleRunLaterTasks();
    assert [Allocation(1, 1, 4.0)] + [Allocation(2, 1, 6.0), Allocation(3, 2, 3.0),
                                      Allocation(4, 2, 5.0), Allocation(4, 3, 3.0)] ==
           [Allocation(1, 1, 4.0), Allocation(2, 1, 6.0), Allocation(3, 2, 3.0),
            Allocation(4, 2, 5.0), Allocation(4, 3, 3.0)];
  }

  lemma SampleRunLaterTasks()
    ensures ServeFrom([6.0, 8.0, 12.0], [4.0, 6.0, 3.0, 8.0], 1) ==
            Outcome([0.0, 0.0, 9.0], [Allocation(2, 1, 6.0), Allocation(3, 2, 3.0),
                                      Allocation(4, 2, 5.0), Allocation(4, 3, 3.0)], [])
  {
    SampleRunFills();
    SampleRunLastTasks();
  }

  lemma SampleRunLastTasks()
    ensures ServeFrom([0.0, 8.0, 12.0], [4.0, 6.0, 3.0, 8.0], 2) ==
            Outcome([0.0, 0.0, 9.0], [Allocation(3, 2, 3.0), Allocation(4, 2, 5.0), Allocation(4, 3, 3.0)], [])
  {
    var d := [4.0, 6.0, 3.0, 8.0];
    SampleRunFills();
    assert ServeFrom([0.0, 0.0, 9.0], d, 4) == Outcome([0.0, 0.0, 9.0], [], []);
    assert ServeFrom([0.0, 5.0, 12.0], d, 3) ==
           Outcome([0.0, 0.0, 9.0], [Allocation(4, 2, 5.0), Allocation(4, 3, 3.0)], []);
  }

  /** The four tasks of the sample run, one at a time. */
  lemma SampleRunFills()
    ensures FillTask(1, [10.0, 8.0, 12.0], 4.0, 0) == Fill([6.0, 8.0, 12.0], [Allocation(1, 1, 4.0)], 0.0)
    ensures FillTask(2, [6.0, 8.0, 12.0], 6.0, 0) == Fill([0.0, 8.0, 12.0], [Allocation(2, 1, 6.0)], 0.0)
    ensures FillTask(3, [0.0, 8.0, 12.0], 3.0, 0) == Fill([0.0, 5.0, 12.0], [Allocation(3, 2, 3.0)], 0.0)
    ensures FillTask(4, [0.0, 5.0, 12.0], 8.0, 0) ==
            Fill([0.0, 0.0, 9.0], [Allocation(4, 2, 5.0), Allocation(4, 3, 3.0)], 0.0)
  {
    assert FillTask(4, [0.0, 0.0, 12.0], 3.0, 2) == Fill([0.0, 0.0, 9.0], [Allocation(4, 3, 3.0)], 0.0);
  }

  /** Capacity 5 and demands 3, 4: the first task is served in full, the second
      gets 2 and is short by 2. */
  lemma ShortfallRun()
    ensures GreedyPlan([5.0], [3.0, 4.0]) ==
            Plan([Allocation(1, 1, 3.0), Allocation(2, 1, 2.0)],
                 [ResourceStatus(1, 5.0, 5.0, 0.0)],
                 [Unallocated(2, 2.0)])
  {
    var d := [3.0, 4.0];
    assert FillTask(1, [5.0], 3.0, 0) == Fill([2.0], [Allocation(1, 1, 3.0)], 0.0);
    assert FillTask(2, [2.0], 4.0, 0) == Fill([0.0], [Allocation(2, 1, 2.0)], 2.0);
    assert ServeFrom([0.0], d, 2) == Outcome([0.0], [], []);
    assert ServeFrom([2.0], d, 1) == Outcome([0.0], [Allocation(2, 1, 2.0)], [Unallocated(2, 2.0)]);
  }

  /** The same demands in the other order short the other task: the fill is
      first come, first served. */
  lemma ReversedShortfallRun()
    ensures GreedyPlan([5.0], [4.0, 3.0]) ==
            Plan([Allocation(1, 1, 4.0), Allocation(2, 1, 1.0)],
                 [ResourceStatus(1, 5.0, 5.0, 0.0)],
                 [Unallocated(2, 2.0)])
  {
    var d := [4.0, 3.0];
    assert FillTask(1, [5.0], 4.0, 0) == Fill([1.0], [Allocation(1, 1, 4.0)], 0.0);
    assert FillTask(2, [1.0], 3.0, 0) == Fill([0.0], [Allocation(2, 1, 1.0)], 2.0);
    assert ServeFrom([0.0], d, 2) == Outcome([0.0], [], []);
    assert ServeFrom([1.0], d, 1) == Outcome([0.0], [Allocation(2, 1, 1.0)], [Unallocated(2, 2.0)]);
  }
}
