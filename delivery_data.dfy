/**
 * The mock delivery fixtures of the order-tracking pages. Delivery 1 uses the
 * base quality checks and travel path as they are; deliveries 2 and 3 are
 * derived from them by index-aware `map`s that overwrite some fields and
 * rename others with first-occurrence `String.prototype.replace`.
 * Dates (`new Date(iso)`) are kept as their ISO strings.
 */
module DeliveryData {
  import opened Wrappers
  import opened JsStrings

  datatype CheckType = TemperatureCheck | Visual | Packaging | Freshness | Documentation
  datatype CheckStatus = Passed | Failed | Warning

  datatype QualityCheck = QualityCheck(
    id: string,
    checkType: CheckType,
    status: CheckStatus,
    value: Option<string>,
    notes: Option<string>,
    checkedAt: string,
    checkedBy: string)

  datatype Coordinates = Coordinates(lat: real, lng: real)
  datatype CheckpointStatus = Departed | InTransit | Arrived | Customs | Delivered

  datatype TravelCheckpoint = TravelCheckpoint(
    id: string,
    location: string,
    coordinates: Coordinates,
    timestamp: string,
    temperatureRecorded: real,
    humidity: Option<real>,
    status: CheckpointStatus,
    notes: Option<string>)

  datatype PackagingCondition = Excellent | Good | Fair | Damaged

  datatype ProductDelivery = ProductDelivery(
    id: string,
    productId: string,
    trackingNumber: string,
    customerName: string,
    deliveryDate: string,
    qualityChecks: seq<QualityCheck>,
    travelPath: seq<TravelCheckpoint>,
    finalTemperature: real,
    packagingCondition: PackagingCondition,
    authenticityVerified: bool,
    deliveryNotes: Option<string>)

  /** `mockQualityChecks`: the five checks of the first delivery. */
  const mockQualityChecks: seq<QualityCheck> :=
    [ QualityCheck("qc-001", TemperatureCheck, Passed, Some("8.2\U{B0}C"),
        Some("Temperature maintained within optimal range throughout cold chain"),
        "2025-09-09T14:30:00Z", "Quality Control Team - Mumbai Hub"),
      QualityCheck("qc-002", Packaging, Passed, Some("Intact"),
        Some("Eco-friendly packaging shows no signs of damage or contamination"),
        "2025-09-09T14:32:00Z", "Quality Control Team - Mumbai Hub"),
      QualityCheck("qc-003", Visual, Passed, Some("Excellent"),
        Some("Fresh appearance with vibrant color indicating peak nutritional value"),
        "2025-09-09T14:35:00Z", "Quality Control Team - Mumbai Hub"),
      QualityCheck("qc-004", Freshness, Passed, Some("96%"),
        Some("Farm-fresh quality maintained with optimal nutrient retention"),
        "2025-09-09T14:38:00Z", "Quality Control Team - Mumbai Hub"),
      QualityCheck("qc-005", Documentation, Passed, Some("Complete"),
        Some("Organic certification and traceability documentation verified"),
        "2025-09-09T14:40:00Z", "Certification & Documentation Team") ]

  /** `tomatoTravelPath`: the six checkpoints of the first delivery. */
  const tomatoTravelPath: seq<TravelCheckpoint> :=
    [ TravelCheckpoint("cp-001", "Nashik, Maharashtra", Coordinates(19.9975, 73.7898),
        "2025-09-07T06:00:00Z", 12.0, None, Departed,
        Some("Harvested fresh from organic farms in Western Ghats region")),
      TravelCheckpoint("cp-002", "Mumbai Cold Storage Hub", Coordinates(19.0760, 72.8777),
        "2025-09-07T10:30:00Z", 8.5, None, InTransit,
        Some("Sorted and packaged in temperature-controlled facility")),
      TravelCheckpoint("cp-003", "Mumbai Distribution Center", Coordinates(19.0896, 72.8656),
        "2025-09-07T14:15:00Z", 8.0, None, InTransit,
        Some("Quality inspection completed, loaded for regional delivery")),
      TravelCheckpoint("cp-004", "Pune Logistics Hub", Coordinates(18.5204, 73.8567),
        "2025-09-08T08:45:00Z", 8.2, None, Arrived,
        Some("Arrived at regional hub, preparing for local delivery")),
      TravelCheckpoint("cp-005", "Local Delivery Vehicle", Coordinates(18.5679, 73.9143),
        "2025-09-08T15:30:00Z", 8.5, None, InTransit,
        Some("Final freshness check before customer delivery")),
      TravelCheckpoint("cp-006", "Customer Address, Pune", Coordinates(18.5204, 73.8567),
        "2025-09-09T11:00:00Z", 8.0, None, Delivered,
        Some("Fresh tomatoes delivered to customer, quality verified on arrival")) ]

  /**
   * `base.map((qc, index) => ({...qc, id: `qc-${no}-${index + 1}`, value: ...}))`:
   * every check is renumbered, and a temperature check gets the new `value`.
   */
  function DeriveChecks(base: seq<QualityCheck>, no: string, temperatureValue: string): (r: seq<QualityCheck>)
    ensures |r| == |base|
    ensures forall i :: 0 <= i < |r| ==> r[i].(id := base[i].id, value := base[i].value) == base[i]
    ensures forall i :: 0 <= i < |r| && base[i].checkType != TemperatureCheck ==> r[i].value == base[i].value
  {
    seq(|base|, i requires 0 <= i < |base| =>
      base[i].(id := "qc-" + no + "-" + NatToString(i + 1),
               value := if base[i].checkType == TemperatureCheck then Some(temperatureValue) else base[i].value))
  }

  /** `s.replace(a1, b1).replace(a2, b2)...`: first-occurrence renames applied in order. */
  function Rename(s: string, renames: seq<(string, string)>): string
    decreases |renames|
  {
    if renames == [] then s else Rename(Replace(s, renames[0].0, renames[0].1), renames[1..])
  }

  /**
   * `base.map((cp, index) => ({...cp, id: cp.id.replace('001', no), temperature_recorded: t,
   * location: index === 0 ? origin : <renamed>, coordinates: index === 0 ? originAt : cp.coordinates}))`.
   */
  function DerivePath(base: seq<TravelCheckpoint>, no: string, t: real, origin: string,
                      originAt: Coordinates, renames: seq<(string, string)>): (r: seq<TravelCheckpoint>)
    ensures |r| == |base|
    ensures forall i :: 0 <= i < |r| ==> r[i].temperatureRecorded == t
    ensures forall i :: 0 <= i < |r| ==>
              r[i].(id := base[i].id, temperatureRecorded := base[i].temperatureRecorded,
                    location := base[i].location, coordinates := base[i].coordinates) == base[i]
  {
    seq(|base|, i requires 0 <= i < |base| =>
      base[i].(id := Replace(base[i].id, "001", no),
               temperatureRecorded := t,
               location := if i == 0 then origin else Rename(base[i].location, renames),
               coordinates := if i == 0 then originAt else base[i].coordinates))
  }

  /** What distinguishes deliveries 2 and 3 in their derivation. */
  datatype Derivation = Derivation(
    no: string, temperatureValue: string, temperature: real,
    origin: string, originAt: Coordinates, renames: seq<(string, string)>)

  /** The parameters of delivery 2 (index 1) and delivery 3 (index 2). */
  function DerivationOf(k: nat): Derivation
    requires 1 <= k <= 2
  {
    if k == 1 then
      Derivation("002", "6.5\U{B0}C", 6.5, "Kochi, Kerala", Coordinates(9.9312, 76.2673),
                 [("Nashik", "Kochi"), ("Maharashtra", "Kerala")])
    else
      Derivation("003", "12.5\U{B0}C", 12.5, "Ratnagiri, Maharashtra", Coordinates(16.9944, 73.3000),
                 [("Nashik", "Ratnagiri")])
  }

  function DerivedChecks(k: nat): seq<QualityCheck>
    requires 1 <= k <= 2
  {
    var d := DerivationOf(k);
    DeriveChecks(mockQualityChecks, d.no, d.temperatureValue)
  }

  function DerivedPath(k: nat): seq<TravelCheckpoint>
    requires 1 <= k <= 2
  {
    var d := DerivationOf(k);
    DerivePath(tomatoTravelPath, d.no, d.temperature, d.origin, d.originAt, d.renames)
  }

  /** `mockDeliveries`. */
  const mockDeliveries: seq<ProductDelivery> :=
    [ ProductDelivery("delivery-001", "organic-red-onions-002", "HKC-TOM-2025-001", "Priya Sharma",
        "2025-09-09T14:45:00Z", mockQualityChecks, tomatoTravelPath, 8.0, Excellent, true,
        Some("Fresh tomatoes delivered in perfect condition. Customer satisfied with quality and freshness.")),
      ProductDelivery("delivery-002", "organic-baby-spinach-003", "HKC-SPI-2025-002", "Rajesh Kumar",
        "2025-09-08T16:20:00Z", DerivedChecks(1), DerivedPath(1), 6.5, Excellent, true,
        Some("Organic spinach delivered fresh with perfect texture. Organic certification verified.")),
      ProductDelivery("delivery-003", "organic-alphonso-mangoes-001", "HKC-MAN-2025-003", "Anita Desai",
        "2025-09-07T11:30:00Z", DerivedChecks(2), DerivedPath(2), 12.5, Excellent, true,
        Some("Premium Alphonso mangoes delivered at perfect ripeness. GI tag verified authenticity.")) ]

  /** Only the first base check is a temperature check. */
  lemma OnlyFirstCheckIsTemperature(i: nat)
    requires i < |mockQualityChecks|
    ensures mockQualityChecks[i].checkType == TemperatureCheck <==> i == 0
  {
  }

  /**
   * A derived check list keeps the length and order of the base list; entry `i` is
   * renumbered `qc-<no>-<i+1>`, and only the temperature entry (the first) gets a new
   * value; every other field and entry is copied.
   */
  lemma DerivedChecksFromBase(k: nat, i: nat)
    requires 1 <= k <= 2
    requires i < |mockQualityChecks|
    ensures |mockDeliveries[k].qualityChecks| == |mockQualityChecks| == 5
    ensures mockDeliveries[k].qualityChecks[i].id == "qc-" + DerivationOf(k).no + "-" + NatToString(i + 1)
    ensures i == 0 ==> mockDeliveries[k].qualityChecks[i].value == Some(DerivationOf(k).temperatureValue)
    ensures mockDeliveries[k].qualityChecks[i].(id := mockQualityChecks[i].id,
                                                 value := mockQualityChecks[i].value)
            == mockQualityChecks[i]
    ensures i != 0 ==> mockDeliveries[k].qualityChecks[i].value == mockQualityChecks[i].value
  {
    OnlyFirstCheckIsTemperature(i);
  }

  /** Derived check ids within one delivery are pairwise distinct. */
  lemma DerivedCheckIdsDistinct(k: nat, i: nat, j: nat)
    requires 1 <= k <= 2
    requires i < j < |mockQualityChecks|
    ensures mockDeliveries[k].qualityChecks[i].id != mockDeliveries[k].qualityChecks[j].id
  {
    DerivedChecksFromBase(k, i);
    DerivedChecksFromBase(k, j);
    var prefix := "qc-" + DerivationOf(k).no + "-";
    var a, b := NatToString(i + 1), NatToString(j + 1);
    if prefix + a == prefix + b {
      assert a == (prefix + a)[|prefix|..];
      assert b == (prefix + b)[|prefix|..];
      NatToStringInjective(i + 1, j + 1);
    }
  }

  /** The renames leave a location alone when each pattern holds a character it lacks. */
  lemma RenameUnchanged(s: string, renames: seq<(string, string)>, missing: seq<char>)
    requires |missing| == |renames|
    requires forall n :: 0 <= n < |renames| ==> missing[n] in renames[n].0 && missing[n] !in s
    ensures Rename(s, renames) == s
    decreases |renames|
  {
    if renames != [] {
      ReplaceMissingChar(s, renames[0].0, renames[0].1, missing[0]);
      RenameUnchanged(s, renames[1..], missing[1..]);
    }
  }

  // Which letters the later base locations lack, one location per lemma to keep each proof small.
  lemma CharsOfColdStorageHub() ensures 'k' !in "Mumbai Cold Storage Hub" && 'h' !in "Mumbai Cold Storage Hub" {}
  lemma CharsOfDistributionCenter() ensures 'k' !in "Mumbai Distribution Center" && 'h' !in "Mumbai Distribution Center" {}
  lemma CharsOfLogisticsHub() ensures 'k' !in "Pune Logistics Hub" && 'M' !in "Pune Logistics Hub" {}
  lemma CharsOfDeliveryVehicle() ensures 'k' !in "Local Delivery Vehicle" && 'M' !in "Local Delivery Vehicle" {}
  lemma CharsOfCustomerAddress() ensures 'k' !in "Customer Address, Pune" && 'M' !in "Customer Address, Pune" {}

  /** The base locations after the first hold no `k`; the first two lack `h`, the others `M`. */
  lemma LaterLocations(i: nat)
    requires 1 <= i < |tomatoTravelPath|
    ensures 'k' !in tomatoTravelPath[i].location
    ensures i <= 2 ==> 'h' !in tomatoTravelPath[i].location
    ensures i > 2 ==> 'M' !in tomatoTravelPath[i].location
  {
    var s := tomatoTravelPath[i].location;
    if i == 1 {
      assert s == "Mumbai Cold Storage Hub";
      CharsOfColdStorageHub();
    } else if i == 2 {
      assert s == "Mumbai Distribution Center";
      CharsOfDistributionCenter();
    } else if i == 3 {
      assert s == "Pune Logistics Hub";
      CharsOfLogisticsHub();
    } else if i == 4 {
      assert s == "Local Delivery Vehicle";
      CharsOfDeliveryVehicle();
    } else {
      assert s == "Customer Address, Pune";
      CharsOfCustomerAddress();
    }
  }

  /** Apart from the first, no base location mentions a place the derivations rename. */
  lemma LaterLocationsUnchanged(k: nat, i: nat)
    requires 1 <= k <= 2
    requires 1 <= i < |tomatoTravelPath|
    ensures Rename(tomatoTravelPath[i].location, DerivationOf(k).renames) == tomatoTravelPath[i].location
  {
    var s := tomatoTravelPath[i].location;
    LaterLocations(i);
    var maharashtraWitness := if i <= 2 then 'h' else 'M';
    if k == 1 {
      RenameUnchanged(s, [("Nashik", "Kochi"), ("Maharashtra", "Kerala")], ['k', maharashtraWitness]);
    } else {
      RenameUnchanged(s, [("Nashik", "Ratnagiri")], ['k']);
    }
  }

  /** Deliveries 2 and 3 carry the derived lists and the temperature of their derivation. */
  lemma DerivedDelivery(k: nat)
    requires 1 <= k <= 2
    ensures mockDeliveries[k].qualityChecks == DerivedChecks(k)
    ensures mockDeliveries[k].travelPath == DerivedPath(k)
    ensures mockDeliveries[k].finalTemperature == DerivationOf(k).temperature
  {
  }

  /**
   * Every derived travel path has six checkpoints, all recording the delivery's final
   * temperature; only the first gets a new location and new coordinates, the others
   * keep the base ones, and the spread copies every other field (timestamp, status,
   * humidity, notes) of the base checkpoint.
   */
  lemma DerivedPathFromBase(k: nat, i: nat)
    requires 1 <= k <= 2
    requires i < |tomatoTravelPath|
    ensures |mockDeliveries[k].travelPath| == |tomatoTravelPath| == 6
    ensures mockDeliveries[k].travelPath[i].temperatureRecorded == mockDeliveries[k].finalTemperature
    ensures i == 0 ==> mockDeliveries[k].travelPath[i].location == DerivationOf(k).origin
    ensures i == 0 ==> mockDeliveries[k].travelPath[i].coordinates == DerivationOf(k).originAt
    ensures i != 0 ==> mockDeliveries[k].travelPath[i].location == tomatoTravelPath[i].location
    ensures i != 0 ==> mockDeliveries[k].travelPath[i].coordinates == tomatoTravelPath[i].coordinates
    ensures mockDeliveries[k].travelPath[i].(id := tomatoTravelPath[i].id,
                                             temperatureRecorded := tomatoTravelPath[i].temperatureRecorded,
                                             location := tomatoTravelPath[i].location,
                                             coordinates := tomatoTravelPath[i].coordinates) == tomatoTravelPath[i]
  {
    DerivedDelivery(k);
    var d, base := DerivationOf(k), tomatoTravelPath;
    assert |base| == 6;
    var cp := DerivedPath(k)[i];
    assert cp.temperatureRecorded == d.temperature;
    if i == 0 {
      assert cp.location == d.origin && cp.coordinates == d.originAt;
    } else {
      LaterLocationsUnchanged(k, i);
      assert cp.location == Rename(base[i].location, d.renames);
      assert cp.coordinates == base[i].coordinates;
    }
  }

  /** `'cp-001'.replace('001', no)` is `'cp-' + no`. */
  lemma FirstCheckpointRenumbered(no: string)
    ensures Replace("cp-001", "001", no) == "cp-" + no
  {
    var s := "cp-001";
    assert OccursAt(s, "001", 3) by { assert s[3..6] == "001"; }
    forall j: nat | j < 3 ensures !OccursAt(s, "001", j) {
      assert s[j] != '0';
      assert j + 3 <= |s| ==> s[j..j + 3][0] == s[j];
    }
  }

  /** The first derived checkpoint is renumbered `cp-<no>`. */
  lemma DerivedFirstCheckpointId(k: nat)
    requires 1 <= k <= 2
    ensures DerivedPath(k)[0].id == "cp-" + DerivationOf(k).no
  {
    var no := DerivationOf(k).no;
    assert DerivedPath(k)[0].id == Replace(tomatoTravelPath[0].id, "001", no);
    FirstCheckpointRenumbered(no);
  }

  /** Every later derived checkpoint keeps its base id. */
  lemma DerivedLaterCheckpointId(k: nat, i: nat)
    requires 1 <= k <= 2
    requires 1 <= i < |tomatoTravelPath|
    ensures DerivedPath(k)[i].id == tomatoTravelPath[i].id
  {
    var no := DerivationOf(k).no;
    assert DerivedPath(k)[i].id == Replace(tomatoTravelPath[i].id, "001", no);
    LaterIdsLackOne(i);
    ReplaceMissingChar(tomatoTravelPath[i].id, "001", no, '1');
  }

  /**
   * Checkpoint ids: `cp-001` becomes `cp-<no>` and every other id is kept, so the
   * derived path of delivery 2 holds `cp-002` twice and that of delivery 3 `cp-003` twice.
   */
  lemma DerivedCheckpointIds(k: nat, i: nat)
    requires 1 <= k <= 2
    requires i < |tomatoTravelPath|
    ensures i == 0 ==> mockDeliveries[k].travelPath[i].id == "cp-" + DerivationOf(k).no
    ensures i != 0 ==> mockDeliveries[k].travelPath[i].id == tomatoTravelPath[i].id
    ensures mockDeliveries[k].travelPath[0].id == mockDeliveries[k].travelPath[k].id == "cp-" + DerivationOf(k).no
  {
    DerivedDelivery(k);
    DerivedFirstCheckpointId(k);
    DerivedLaterCheckpointId(k, k);
    LaterIdsLackOne(k);
    SecondAndThirdIds();
    if i != 0 {
      DerivedLaterCheckpointId(k, i);
    }
  }

  /** The ids `cp-002` and `cp-003` are `'cp-'` followed by the delivery numbers of deliveries 2 and 3. */
  lemma SecondAndThirdIds()
    ensures "cp-" + DerivationOf(1).no == "cp-002" && "cp-" + DerivationOf(2).no == "cp-003"
  {
    assert ("cp-" + "002")[5] == '2' && ("cp-" + "003")[5] == '3';
  }

  /** The base checkpoint ids after the first hold no `1`, and the second and third are `cp-002`, `cp-003`. */
  lemma LaterIdsLackOne(i: nat)
    requires 1 <= i < |tomatoTravelPath|
    ensures '1' !in tomatoTravelPath[i].id
    ensures i == 1 ==> tomatoTravelPath[i].id == "cp-002"
    ensures i == 2 ==> tomatoTravelPath[i].id == "cp-003"
  {
    var id := tomatoTravelPath[i].id;
    if i == 1 {
      assert id == "cp-002" && '1' !in "cp-002";
    } else if i == 2 {
      assert id == "cp-003" && '1' !in "cp-003";
    } else if i == 3 {
      assert id == "cp-004" && '1' !in "cp-004";
    } else if i == 4 {
      assert id == "cp-005" && '1' !in "cp-005";
    } else {
      assert id == "cp-006" && '1' !in "cp-006";
    }
  }

  /** The tracking numbers of `mockDeliveries`, in order. */
  lemma TrackingNumbersAre()
    ensures |mockDeliveries| == 3
    ensures mockDeliveries[0].trackingNumber == "HKC-TOM-2025-001"
    ensures mockDeliveries[1].trackingNumber == "HKC-SPI-2025-002"
    ensures mockDeliveries[2].trackingNumber == "HKC-MAN-2025-003"
  {
  }

  /** The three tracking numbers differ even when lower-cased, so a lookup finds at most one. */
  lemma TrackingNumbersDistinct(i: nat, j: nat)
    requires i < j < |mockDeliveries|
    ensures Lower(mockDeliveries[i].trackingNumber) != Lower(mockDeliveries[j].trackingNumber)
  {
    TrackingNumbersAre();
    var a, b := mockDeliveries[i].trackingNumber, mockDeliveries[j].trackingNumber;
    var tom, spi, man := "HKC-TOM-2025-001", "HKC-SPI-2025-002", "HKC-MAN-2025-003";
    if i == 0 {
      assert a == tom;
      assert b == spi || b == man;
      LowerDiffersAt(tom, spi, 4);
      LowerDiffersAt(tom, man, 4);
    } else {
      assert a == spi && b == man;
      LowerDiffersAt(spi, man, 4);
    }
  }
}
