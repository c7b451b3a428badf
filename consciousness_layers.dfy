/** The consciousness-layer panel: a table of five layers and the panel's
    selection, which a click on a layer toggles and reports to its parent. */
module ConsciousnessLayers {
  import opened Options

  datatype Layer = Layer(id: int, name: string)

  /** The panel's layers, in display order. */
  function Table(): (t: seq<Layer>)
    ensures |t| == 5
    ensures forall i :: 0 <= i < |t| ==> t[i].id == i
  {
    [Layer(0, "Perception"), Layer(1, "Memory"), Layer(2, "Creativity"), Layer(3, "Logic"), Layer(4, "Emotion")]
  }

  /** The selection after a click on layer `id`: clicking the selected layer
      clears it, clicking any other layer selects that one. */
  function Clicked(selected: Option<int>, id: int): (r: Option<int>)
    ensures r == None <==> selected == Some(id)
    ensures r != None ==> r == Some(id)
  {
    if selected == Some(id) then None else Some(id)
  }

  /** A second click on the same layer clears the selection, unless the layer
      was selected to begin with; from the initial empty selection two clicks
      return the panel to its initial state. */
  lemma ClickTwice(selected: Option<int>, id: int)
    ensures selected != Some(id) ==> Clicked(Clicked(selected, id), id) == None
    ensures selected == Some(id) ==> Clicked(Clicked(selected, id), id) == Some(id)
  {
  }

  class Panel {
    var selectedLayer: Option<int>
    var isExpanded: bool

    /** The panel is expanded exactly while a layer is selected. */
    ghost predicate Valid()
      reads this
    {
      isExpanded <==> selectedLayer.Some?
    }

    constructor ()
      ensures selectedLayer == None && !isExpanded
      ensures Valid()
    {
      selectedLayer, isExpanded := None, false;
    }

    /** `handleLayerClick`: toggles the selection and returns the value passed
        to `onLayerChange`, which is always the new selection. */
    method Click(id: int) returns (reported: Option<int>)
      requires Valid()
      modifies this
      ensures Valid()
      ensures selectedLayer == Clicked(old(selectedLayer), id)
      ensures old(selectedLayer) == Some(id) ==> selectedLayer == None && !isExpanded
      ensures old(selectedLayer) != Some(id) ==> selectedLayer == Some(id) && isExpanded
      ensures reported == selectedLayer
    {
      if selectedLayer == Some(id) {
        selectedLayer := None;
        isExpanded := false;
        reported := None;
      } else {
        selectedLayer := Some(id);
        isExpanded := true;
        reported := Some(id);
      }
    }
  }
}
