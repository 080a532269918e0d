/** What both kinds of linked trees share: the two sides of a node, and parts of
    memory that stay as they are. */
module Sides {
  datatype Side = L | R

  function Other(s: Side): Side { if s.L? then R else L }

  ghost predicate Agree<K, V>(m: map<K, V>, m': map<K, V>, s: set<K>) {
    forall n :: n in s && n in m ==> n in m' && m'[n] == m[n]
  }
}
