// Vocabulary shared by the components of the model.

module Common {
  datatype Option<+T> = None | Some(value: T)

  // Lifecycle of one connection, in the order in which it may advance.
  datatype ConnectionState = Created | Connecting | Connected | Closing | Closed

  function Rank(s: ConnectionState): nat {
    match s
    case Created => 0
    case Connecting => 1
    case Connected => 2
    case Closing => 3
    case Closed => 4
  }

  lemma SubsetSize<T>(a: set<T>, b: set<T>)
    requires a <= b
    ensures |a| <= |b|
  {
    assert b == a + (b - a);
  }
}
