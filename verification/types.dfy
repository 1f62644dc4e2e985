/** The records of types.ts: locations, the closed enumerations and the Quote. */
module Types {
  import opened Wrappers

  /** A geocoded point; `address` is optional, as in the source's interface. */
  datatype Location = Location(lat: real, lng: real, address: Option<string>)

  /** 'tarifa1' (sunday), 'tarifa2' (rain), 'tarifa3' (standard). */
  datatype TariffType = Tarifa1 | Tarifa2 | Tarifa3

  datatype DwellingType = Casa | Departamento | Desconoce

  datatype PaymentMethod = Cash | Transfer

  datatype PaymentType = Paid | CollectAtDest

  /** One immutable delivery quote. Monetary amounts and distances are JavaScript numbers,
      modelled as exact reals. */
  datatype Quote = Quote(
    id: string,
    timestamp: string,
    origin: Location,
    destination: Location,
    clientName: string,
    senderPhone: string,
    recipientPhone: string,
    description: string,
    dwellingType: DwellingType,
    dwellingDetail: string,
    tariffType: TariffType,
    distanceKm: real,
    shippingFee: real,
    estimatedTimeMin: int,
    collectAmount: real,
    paymentType: PaymentType,
    paymentMethod: PaymentMethod,
    totalToCollect: real,
    passesDonBosco: bool,
    isInSpecialZone: bool)
}
