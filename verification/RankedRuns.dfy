/** Runs of a machine that every turn brings nearer to its end, but for setbacks: how long they can
    be, and exactly when an unending one reaches the end. */
module RankedRuns {
  /** The turns from number `i` up to number `n`. */
  ghost predicate Follows<S, T>(takes: (S, T, S) -> bool, run: nat -> S, turns: nat -> T, i: nat, n: nat) {
    forall k :: i <= k < n ==> TakesAt(takes, run, turns, k)
  }

  ghost predicate TakesAt<S, T>(takes: (S, T, S) -> bool, run: nat -> S, turns: nat -> T, k: nat) {
    takes(run(k), turns(k), run(k + 1))
  }

  /** A run that goes on for ever. */
  ghost predicate Forever<S, T>(takes: (S, T, S) -> bool, run: nat -> S, turns: nat -> T) {
    forall k: nat :: TakesAt(takes, run, turns, k)
  }

  ghost predicate Reaches<S>(ended: S -> bool, run: nat -> S) { exists n: nat :: ended(run(n)) }

  ghost function Setbacks<S, T>(setback: (T, S) -> bool, run: nat -> S, turns: nat -> T, i: nat, n: nat): nat
    decreases n
  {
    if n <= i then 0 else Setbacks(setback, run, turns, i, n - 1) + (if setback(turns(n - 1), run(n)) then 1 else 0)
  }

  lemma Scaled(a: nat, b: nat, k: nat)
    requires a <= b
    ensures a * k <= b * k && (a + 1) * k == a * k + k
  {
  }

  /** One turn keeps what is fit fit and what has ended ended, and otherwise lowers the weight, unless
      it is a setback, which may raise it by less than the penalty. */
  ghost predicate Law<S, T>(takes: (S, T, S) -> bool, setback: (T, S) -> bool, fit: S -> bool, ended: S -> bool,
                            weight: S -> nat, penalty: nat, a: S, turn: T, b: S) {
    fit(a) && takes(a, turn, b) ==>
      && fit(b)
      && (if ended(a) then ended(b) && !setback(turn, b)
          else weight(b) + 1 <= weight(a) + (if setback(turn, b) then penalty else 0))
  }

  ghost predicate Lawful<S(!new), T(!new)>(takes: (S, T, S) -> bool, setback: (T, S) -> bool, fit: S -> bool, ended: S -> bool,
                                           weight: S -> nat, penalty: nat) {
    forall a, turn, b :: Law(takes, setback, fit, ended, weight, penalty, a, turn, b)
  }

  /** From a fit state the run stays fit. If it has ended it stays ended without a setback; if it had
      not before the last turn, its turns are paid for by the weight and the setbacks. */
  lemma {:induction false} RunCosts<S(!new), T(!new)>(takes: (S, T, S) -> bool, setback: (T, S) -> bool, fit: S -> bool, ended: S -> bool,
                                                      weight: S -> nat, penalty: nat, run: nat -> S, turns: nat -> T, i: nat, n: nat)
    requires Lawful(takes, setback, fit, ended, weight, penalty)
    requires i <= n && Follows(takes, run, turns, i, n) && fit(run(i))
    ensures fit(run(n)) && (ended(run(i)) ==> ended(run(n)) && Setbacks(setback, run, turns, i, n) == 0)
    ensures !ended(run(n)) ==> n - i + weight(run(n)) <= weight(run(i)) + Setbacks(setback, run, turns, i, n) * penalty
  {
    if i < n {
      RunCosts(takes, setback, fit, ended, weight, penalty, run, turns, i, n - 1);
      assert TakesAt(takes, run, turns, n - 1);
      assert Law(takes, setback, fit, ended, weight, penalty, run(n - 1), turns(n - 1), run(n));
      Scaled(Setbacks(setback, run, turns, i, n - 1), Setbacks(setback, run, turns, i, n - 1), penalty);
    }
  }

  /** No setback from turn number `n` on. */
  ghost predicate Ceases<S, T>(setback: (T, S) -> bool, run: nat -> S, turns: nat -> T, n: nat) {
    forall k: nat :: k >= n ==> !setback(turns(k), run(k + 1))
  }

  lemma {:induction false} NoSetbacks<S, T>(setback: (T, S) -> bool, run: nat -> S, turns: nat -> T, i: nat, n: nat)
    requires forall k: nat :: i <= k < n ==> !setback(turns(k), run(k + 1))
    ensures Setbacks(setback, run, turns, i, n) == 0
    decreases n
  {
    if n > i { NoSetbacks(setback, run, turns, i, n - 1); }
  }

  /** A run that goes on for ever ends if and only if its setbacks cease. */
  lemma EndsIffCeases<S(!new), T(!new)>(takes: (S, T, S) -> bool, setback: (T, S) -> bool, fit: S -> bool, ended: S -> bool,
                                        weight: S -> nat, penalty: nat, run: nat -> S, turns: nat -> T)
    requires Lawful(takes, setback, fit, ended, weight, penalty)
    requires Forever(takes, run, turns) && fit(run(0))
    ensures Reaches(ended, run) <==> exists n: nat :: Ceases(setback, run, turns, n)
  {
    if n: nat :| ended(run(n)) {
      RunCosts(takes, setback, fit, ended, weight, penalty, run, turns, 0, n);
      forall k: nat | k >= n ensures !setback(turns(k), run(k + 1)) {
        RunCosts(takes, setback, fit, ended, weight, penalty, run, turns, n, k + 1);
      }
      assert Ceases(setback, run, turns, n);
    }
    if n: nat :| Ceases(setback, run, turns, n) {
      RunCosts(takes, setback, fit, ended, weight, penalty, run, turns, 0, n);
      var m := n + weight(run(n)) + 1;
      NoSetbacks(setback, run, turns, n, m);
      RunCosts(takes, setback, fit, ended, weight, penalty, run, turns, n, m);
    }
  }

  ghost predicate Stable<S(!new), T(!new)>(takes: (S, T, S) -> bool, good: S -> bool) {
    forall a, turn, b :: good(a) && takes(a, turn, b) ==> good(b)
  }

  lemma {:induction false} StaysGood<S(!new), T(!new)>(takes: (S, T, S) -> bool, good: S -> bool, run: nat -> S, turns: nat -> T, i: nat, n: nat)
    requires Stable(takes, good) && i <= n && Follows(takes, run, turns, i, n) && good(run(i))
    ensures good(run(n))
  {
    if i < n {
      StaysGood(takes, good, run, turns, i, n - 1);
      assert TakesAt(takes, run, turns, n - 1);
    }
  }

  // ---------------------------------------------------------------- runs without end

  /** Number `k` of the turns can always be taken, alive to alive. */
  ghost predicate GoesOn<S(!new), T(!new)>(takes: (nat, S, T, S) -> bool, alive: (nat, S) -> bool, k: nat, a: S) {
    alive(k, a) ==> exists turn, b :: takes(k, a, turn, b) && alive(k + 1, b)
  }

  ghost function Onward<S(!new), T(!new)>(takes: (nat, S, T, S) -> bool, alive: (nat, S) -> bool, k: nat, a: S): (next: (T, S))
    requires alive(k, a) && GoesOn(takes, alive, k, a)
    ensures takes(k, a, next.0, next.1) && alive(k + 1, next.1)
  {
    var turn, b :| takes(k, a, turn, b) && alive(k + 1, b);
    (turn, b)
  }

  ghost function After<S(!new), T(!new)>(takes: (nat, S, T, S) -> bool, alive: (nat, S) -> bool, a: S, n: nat): (b: S)
    requires alive(0, a) && forall k, s :: GoesOn(takes, alive, k, s)
    ensures alive(n, b)
  {
    if n == 0 then a else Onward(takes, alive, n - 1, After(takes, alive, a, n - 1)).1
  }

  ghost predicate TakesNumber<S, T>(takes: (nat, S, T, S) -> bool, run: nat -> S, turns: nat -> T, k: nat) {
    takes(k, run(k), turns(k), run(k + 1))
  }

  ghost predicate AllTaken<S, T>(takes: (nat, S, T, S) -> bool, run: nat -> S, turns: nat -> T) {
    forall k: nat :: TakesNumber(takes, run, turns, k)
  }

  /** Where every live state has a turn to a live one, a run from it need never end. */
  lemma Unending<S(!new), T(!new)>(takes: (nat, S, T, S) -> bool, alive: (nat, S) -> bool, a: S) returns (run: nat -> S, turns: nat -> T)
    requires alive(0, a) && forall k, s :: GoesOn(takes, alive, k, s)
    ensures run(0) == a && AllTaken(takes, run, turns)
  {
    run := (n: nat) => After(takes, alive, a, n);
    turns := (n: nat) => Onward(takes, alive, n, After(takes, alive, a, n)).0;
  }
}
