/** The zone list of a Body as the source keeps it: one list object that
    `set_zones`, `add_global_resource` and `add_zone_resource` change in
    place. Each method is specified by the function of the same name on
    zone sequences. */
module ZoneLists {
  import Domain

  /** A zone list as a Body holds it, updated in place as the source does. */
  class ZoneList {
    var zones: seq<Domain.Zone>

    constructor ()
      ensures zones == []
    {
      zones := [];
    }

    method SetZones(n: nat)
      modifies this
      ensures zones == Domain.SetZones(old(zones), n)
    {
      ghost var start := zones;
      for i := 0 to n
        invariant zones == start + Domain.EmptyZones(i)
      {
        zones := zones + [Domain.Zone([])];
        assert Domain.EmptyZones(i + 1) == Domain.EmptyZones(i) + [Domain.Zone([])];
      }
    }

    method AddGlobalResource(r: Domain.Resource)
      modifies this
      ensures zones == Domain.AddGlobalResource(old(zones), r)
    {
      var i := 0;
      while i < |zones|
        invariant 0 <= i <= |zones| == |old(zones)|
        invariant zones[..i] == Domain.AddGlobalResource(old(zones)[..i], r)
        invariant zones[i..] == old(zones)[i..]
        decreases |old(zones)| - i
      {
        Domain.AddGlobalResourceSnoc(old(zones)[..i], old(zones)[i], r);
        assert old(zones)[..i + 1] == old(zones)[..i] + [old(zones)[i]];
        assert zones[i] == old(zones)[i];
        zones := zones[i := Domain.AddResource(zones[i], r)];
        i := i + 1;
      }
      assert zones == zones[..i];
      assert old(zones) == old(zones)[..i];
    }

    method AddZoneResource(z: nat, r: Domain.Resource)
      modifies this
      ensures zones == Domain.AddZoneResource(old(zones), z, r)
    {
      while |zones| <= z
        invariant Domain.GrowZones(zones, z) == Domain.GrowZones(old(zones), z)
        decreases z + 1 - |zones|
      {
        zones := zones + [Domain.Zone([])];
      }
      zones := zones[z := Domain.AddResource(zones[z], r)];
    }
  }

}
