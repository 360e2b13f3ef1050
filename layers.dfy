/** The layer stack (LayerStack): an ordered list of layers, bottom first, that the
    application updates and renders in order and that owns its layers. What a layer
    does in its onAttach/onDetach overrides is not modelled: the stack keeps the
    ordered record of the hooks it calls and the layers it deletes. */
module Layers {

  /** A layer, known by its identity. */
  class Layer {
    constructor ()
    {
    }
  }

  /** What the stack does to a layer. */
  datatype LayerEvent = OnAttach(layer: Layer) | OnDetach(layer: Layer) | Delete(layer: Layer)

  /** The position of the first occurrence of x in s. */
  function FirstIndex<T(==)>(s: seq<T>, x: T): (i: nat)
    requires x in s
    ensures i < |s| && s[i] == x && x !in s[..i]
  {
    if s[0] == x then 0 else 1 + FirstIndex(s[1..], x)
  }

  /** s without the first occurrence of x; s itself when x does not occur. */
  function RemoveFirst<T(==)>(s: seq<T>, x: T): seq<T>
  {
    if x in s then s[..FirstIndex(s, x)] + s[FirstIndex(s, x) + 1..] else s
  }

  /** Removing the first occurrence of a present element takes exactly one copy of it
      out, leaves the elements before it in place and shifts the ones after it down
      by one. */
  lemma RemoveFirstTakesOneOut<T>(s: seq<T>, x: T)
    requires x in s
    ensures |RemoveFirst(s, x)| == |s| - 1
    ensures multiset(RemoveFirst(s, x)) == multiset(s) - multiset{x}
    ensures forall k | 0 <= k < FirstIndex(s, x) :: RemoveFirst(s, x)[k] == s[k]
    ensures forall k | FirstIndex(s, x) <= k < |s| - 1 :: RemoveFirst(s, x)[k] == s[k + 1]
  {
    var i := FirstIndex(s, x);
    assert s == s[..i] + [x] + s[i + 1..];
    calc {
      multiset(s);
      multiset(s[..i] + [x] + s[i + 1..]);
      multiset(s[..i]) + multiset{x} + multiset(s[i + 1..]);
    }
  }

  /** The hooks the destructor calls: each layer, bottom to top, is detached and then
      deleted. */
  function DetachAll(layers: seq<Layer>): (events: seq<LayerEvent>)
    ensures |events| == 2 * |layers|
    ensures forall i | 0 <= i < |layers| :: events[2 * i] == OnDetach(layers[i]) && events[2 * i + 1] == Delete(layers[i])
  {
    if layers == [] then [] else [OnDetach(layers[0]), Delete(layers[0])] + DetachAll(layers[1..])
  }

  class LayerStack {
    /** m_layers, bottom first. */
    var layers: seq<Layer>
    /** The hooks called and the layers deleted so far, oldest first. */
    ghost var events: seq<LayerEvent>

    constructor ()
      ensures layers == [] && events == []
    {
      layers := [];
      events := [];
    }

    /** LayerStack::pushLayer: put the layer on top, then attach it. */
    method PushLayer(layer: Layer)
      modifies this
      ensures layers == old(layers) + [layer]
      ensures events == old(events) + [OnAttach(layer)]
    {
      layers := layers + [layer];
      events := events + [OnAttach(layer)];
    }

    /** LayerStack::popLayer: find the layer's first occurrence from the bottom; if it
        is there, detach it and take that occurrence out. An absent layer is left
        alone and not detached. The layer is not deleted. */
    method PopLayer(layer: Layer)
      modifies this
      ensures layers == RemoveFirst(old(layers), layer)
      ensures layer in old(layers) ==> events == old(events) + [OnDetach(layer)]
      ensures layer !in old(layers) ==> events == old(events)
    {
      var i := 0;
      while i < |layers| && layers[i] != layer
        invariant i <= |layers|
        invariant layer !in layers[..i]
      {
        i := i + 1;
      }
      if i < |layers| {
        assert layer in layers;
        assert i == FirstIndex(layers, layer) by {
          FirstIndexUnique(layers, layer, i);
        }
        events := events + [OnDetach(layer)];
        layers := layers[..i] + layers[i + 1..];
      } else {
        assert layers[..i] == layers;
      }
    }

    /** The destructor: detach and delete every layer, bottom to top. */
    method Destroy()
      modifies this
      ensures events == old(events) + DetachAll(old(layers))
      ensures layers == old(layers)
    {
      for i := 0 to |layers|
        invariant events == old(events) + DetachAll(layers[..i])
      {
        DetachAllSnoc(layers[..i], layers[i]);
        assert layers[..i + 1] == layers[..i] + [layers[i]];
        events := events + [OnDetach(layers[i]), Delete(layers[i])];
      }
      assert layers[..|layers|] == layers;
    }

    /** begin/end: the layers bottom to top. */
    function BottomUp(): (r: seq<Layer>)
      reads this
      ensures r == layers
    {
      layers
    }

    /** rbegin/rend: the layers top to bottom. */
    function TopDown(): (r: seq<Layer>)
      reads this
      ensures |r| == |layers|
      ensures forall i | 0 <= i < |layers| :: r[i] == layers[|layers| - 1 - i]
    {
      Reversed(layers)
    }
  }

  function Reversed<T>(s: seq<T>): (r: seq<T>)
    ensures |r| == |s|
    ensures forall i | 0 <= i < |s| :: r[i] == s[|s| - 1 - i]
  {
    if s == [] then [] else Reversed(s[1..]) + [s[0]]
  }

  /** The first occurrence is the only index with x that has no x before it. */
  lemma FirstIndexUnique<T>(s: seq<T>, x: T, i: nat)
    requires i < |s| && s[i] == x && x !in s[..i]
    ensures FirstIndex(s, x) == i
  {
  }

  /** Detaching one more layer on top appends its detach and delete. */
  lemma {:induction false} DetachAllSnoc(layers: seq<Layer>, top: Layer)
    ensures DetachAll(layers + [top]) == DetachAll(layers) + [OnDetach(top), Delete(top)]
  {
    if layers != [] {
      assert (layers + [top])[1..] == layers[1..] + [top];
      DetachAllSnoc(layers[1..], top);
    }
  }

  /** A pushed layer popped straight away leaves the stack as it was, after one attach
      and one detach; popping it again does nothing. */
  method PushPopScenario(stack: LayerStack, layer: Layer)
    requires layer !in stack.layers
    modifies stack
  {
    var before := stack.layers;
    stack.PushLayer(layer);
    stack.PopLayer(layer);
    RemoveFirstTakesOneOut(before + [layer], layer);
    assert FirstIndex(before + [layer], layer) == |before|;
    assert stack.layers == before;
    var events := stack.events;
    stack.PopLayer(layer);
    assert stack.layers == before && stack.events == events;
  }
}
