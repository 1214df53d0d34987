/**
 * The proxy configuration tree, as far as the API-exposure skeleton needs it:
 * a directive is a name, ordered arguments and an ordered body of child
 * directives (empty for a statement such as `listen 80;`).
 */
module Configuration {

  /** The value of a directive subtree. */
  datatype Directive = Directive(name: string, args: seq<string>, body: seq<Directive>)

  /** A statement directive: no body. */
  function Leaf(name: string, args: seq<string>): Directive {
    Directive(name, args, [])
  }

  /** The immediate children of `d` named `name`, in document order. */
  function Find(d: Directive, name: string): seq<Directive> {
    FindIn(d.body, name)
  }

  function FindIn(children: seq<Directive>, name: string): seq<Directive> {
    if children == [] then []
    else if children[0].name == name then [children[0]] + FindIn(children[1..], name)
    else FindIn(children[1..], name)
  }

  /** Find keeps the children with that name, all of them and nothing else. */
  lemma {:induction false} FindInIsFilter(children: seq<Directive>, name: string)
    ensures var r := FindIn(children, name);
      && |r| <= |children|
      && (forall x | x in r :: x in children && x.name == name)
      && (forall x | x in children && x.name == name :: x in r)
  {
    if children != [] {
      FindInIsFilter(children[1..], name);
      assert forall x | x in children :: x == children[0] || x in children[1..];
    }
  }

  /** A single directive is found exactly when its name is the one looked for. */
  lemma FindInOne(x: Directive, name: string)
    ensures FindIn([x], name) == if x.name == name then [x] else []
  {
    assert [x][1..] == [];
  }

  /** Finding in a concatenation finds in each part, in order. */
  lemma {:induction false} FindInAppend(a: seq<Directive>, b: seq<Directive>, name: string)
    ensures FindIn(a + b, name) == FindIn(a, name) + FindIn(b, name)
  {
    if a == [] {
      assert a + b == b;
    } else {
      assert (a + b)[0] == a[0];
      assert (a + b)[1..] == a[1..] + b;
      FindInAppend(a[1..], b, name);
    }
  }

  /**
   * A directive node that is built in place: `AddBody` appends a new child to
   * `body` and hands the child back, so that the caller can keep filling it.
   * `Tree` is the value of the subtree rooted here and `Repr` the nodes it is
   * made of.
   */
  class Node {
    const name: string
    const args: seq<string>
    var body: seq<Node>
    ghost var Tree: Directive
    ghost var Repr: set<object>

    ghost predicate Valid()
      reads this, Repr
      decreases Repr, 1
    {
      && this in Repr
      && Tree.name == name && Tree.args == args && |Tree.body| == |body|
      && (forall i | 0 <= i < |body| :: ChildValid(i))
      && (forall i, j | 0 <= i < j < |body| :: Separate(i, j))
    }

    /** The i-th child is a valid subtree inside this one's footprint, and its value is Tree.body[i]. */
    ghost predicate ChildValid(i: int)
      reads this, Repr
      decreases Repr, 0
    {
      && this in Repr && 0 <= i < |body| && i < |Tree.body|
      && body[i] in Repr && body[i].Repr <= Repr && this !in body[i].Repr
      && body[i].Valid() && body[i].Tree == Tree.body[i]
    }

    /** Two children own disjoint nodes. */
    ghost predicate Separate(i: int, j: int)
      reads this, Repr
    {
      && this in Repr && 0 <= i < |body| && 0 <= j < |body|
      && body[i] in Repr && body[j] in Repr
      && body[i].Repr !! body[j].Repr
    }

    /** A new directive with no body. */
    constructor (name: string, args: seq<string>)
      ensures Valid() && fresh(Repr) && Repr == {this}
      ensures this.name == name && this.args == args && body == []
      ensures Tree == Leaf(name, args)
    {
      this.name := name;
      this.args := args;
      body := [];
      Tree := Leaf(name, args);
      Repr := {this};
    }

    /** Appends a new statement `name args...` to this directive's body and returns it. */
    method AddBody(name: string, args: seq<string>) returns (child: Node)
      requires Valid()
      modifies this
      ensures Valid() && fresh(child) && child.Valid()
      ensures child.name == name && child.args == args && child.body == []
      ensures child.Tree == Leaf(name, args) && child.Repr == {child}
      ensures body == old(body) + [child]
      ensures Repr == old(Repr) + {child}
      ensures Tree == Directive(this.name, this.args, old(Tree.body) + [Leaf(name, args)])
    {
      ghost var before := body;
      assert forall i | 0 <= i < |before| :: ChildValid(i);
      child := new Node(name, args);
      body := body + [child];
      Repr := Repr + {child};
      Tree := Directive(this.name, this.args, Tree.body + [child.Tree]);
      forall i | 0 <= i < |body|
        ensures ChildValid(i)
      {
        if i < |before| {
          assert old(ChildValid(i));
        }
      }
      forall i, j | 0 <= i < j < |body|
        ensures Separate(i, j)
      {
        if j < |before| {
          assert old(Separate(i, j));
        } else {
          assert ChildValid(i);
        }
      }
    }

    /**
     * When only the last child changed, and only by taking on fresh nodes, the
     * other children and their separation are as they were.
     */
    twostate lemma OnlyLastChildChanged()
      requires old(Valid()) && 0 < |old(body)|
      requires unchanged(this)
      requires forall o | o in old(Repr) && o != body[|body| - 1] :: unchanged(o)
      requires body[|body| - 1].Valid()
      requires fresh(body[|body| - 1].Repr - old(body[|body| - 1].Repr))
      ensures forall i | 0 <= i < |body| - 1 :: ChildValid(i)
      ensures forall i, j | 0 <= i < j < |body| - 1 :: Separate(i, j)
      ensures this !in body[|body| - 1].Repr
      ensures forall i | 0 <= i < |body| - 1 :: body[i].Repr !! body[|body| - 1].Repr
    {
      var k := |body| - 1;
      assert old(ChildValid(k));
      forall i | 0 <= i < k
        ensures ChildValid(i) && body[i].Repr !! body[k].Repr
      {
        assert old(ChildValid(i)) && old(Separate(i, k));
        assert forall o | o in body[i].Repr :: o in old(Repr) && o != body[k];
      }
      forall i, j | 0 <= i < j < k
        ensures Separate(i, j)
      {
        assert old(Separate(i, j));
      }
    }

    /**
     * Brings this node's footprint and value up to date after its last child
     * grew in place, through the pointer that AddBody handed out.
     */
    ghost method RefreshLast()
      requires this in Repr && 0 < |body| && |Tree.body| == |body|
      requires Tree.name == name && Tree.args == args
      requires forall i | 0 <= i < |body| - 1 :: ChildValid(i)
      requires forall i, j | 0 <= i < j < |body| - 1 :: Separate(i, j)
      requires body[|body| - 1].Valid() && this !in body[|body| - 1].Repr
      requires forall i | 0 <= i < |body| - 1 :: body[i].Repr !! body[|body| - 1].Repr
      modifies this
      ensures Valid() && body == old(body)
      ensures Repr == old(Repr) + body[|body| - 1].Repr
      ensures Tree == Directive(name, args, old(Tree.body)[|body| - 1 := body[|body| - 1].Tree])
    {
      var k := |body| - 1;
      assert forall i | 0 <= i < k :: ChildValid(i);
      Repr := Repr + body[k].Repr;
      Tree := Directive(name, args, Tree.body[k := body[k].Tree]);
      forall i | 0 <= i < |body|
        ensures ChildValid(i)
      {
        if i < k {
          assert old(ChildValid(i));
        }
      }
      forall i, j | 0 <= i < j < |body|
        ensures Separate(i, j)
      {
        if j < k {
          assert old(Separate(i, j));
        } else {
          assert ChildValid(i);
        }
      }
    }
  }
}
