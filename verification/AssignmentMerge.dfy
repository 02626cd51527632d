/** Reloaded prefix assignment settings (interface.c). */
module AssignmentMerge {
  import opened IfAddr

  datatype IfaceId = Fixed | Random | Eui64

  /** The prefix assignment settings of an interface, apart from its classes. */
  datatype Settings = Settings(hint: int, length: nat, selection: IfaceId, fixedId: Addr, weight: int)

  /** A change that the subnets depend on; the fixed suffix counts only where it is used. */
  predicate FieldsDiffer(a: Settings, b: Settings)
  {
    || a.hint != b.hint || a.length != b.length || a.selection != b.selection || a.weight != b.weight
    || (a.selection == Fixed && a.fixedId != b.fixedId)
  }

  class Interface {
    var settings: Settings
    var classes: seq<string>

    constructor (settings: Settings, classes: seq<string>)
      ensures this.settings == settings && this.classes == classes
    {
      this.settings, this.classes := settings, classes;
    }

    /** interface_merge_assignment_data, called on the old interface. `refresh` tells whether
        interface_refresh_assignments is called. The loop eats the old class list as far as it
        agrees with the new one. */
    method Merge(reloaded: Interface) returns (refresh: bool)
      requires reloaded != this
      modifies this, reloaded
      ensures classes == old(reloaded.classes) && reloaded.classes == []
      ensures reloaded.settings == old(reloaded.settings)
      ensures refresh <==> FieldsDiffer(old(settings), reloaded.settings) || old(classes) != old(reloaded.classes)
      ensures settings == if refresh then reloaded.settings else old(settings)
      ensures refresh <==> settings != old(settings) || old(classes) != old(reloaded.classes)
      ensures !FieldsDiffer(settings, reloaded.settings)
    {
      var a, b := settings, reloaded.settings;
      var changed :=
        a.hint != b.hint || a.length != b.length || a.selection != b.selection || a.weight != b.weight
        || (a.selection == Fixed && a.fixedId != b.fixedId) || (classes == []) != (reloaded.classes == []);
      ghost var before := changed;
      var i := 0;
      while i < |reloaded.classes|
        invariant 0 <= i <= |reloaded.classes| && i <= |old(classes)|
        invariant classes == old(classes)[i..] && old(classes)[..i] == reloaded.classes[..i]
        invariant settings == old(settings)
        invariant reloaded.settings == old(reloaded.settings) && reloaded.classes == old(reloaded.classes)
        invariant changed == before
      {
        if classes == [] {
          changed := true;
        }
        if changed {
          break;
        }
        if classes[0] != reloaded.classes[i] {
          break;
        }
        classes := classes[1..];
        i := i + 1;
      }
      assert !changed && classes == [] ==> i == |reloaded.classes| && old(classes) == reloaded.classes;
      if classes != [] {
        classes := [];
        changed := true;
      }
      classes, reloaded.classes := reloaded.classes, [];
      if changed {
        settings := reloaded.settings;
      }
      refresh := changed;
    }
  }
}
