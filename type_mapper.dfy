/** The mapping of C type names to Kato type names
    (`kato/c2kato/converter/type_mapper.py`). */
module TypeMapper {
  /** `C_TO_KATO_TYPES`. */
  const CToKatoTypes: map<string, string> := map["int" := "int", "float" := "float", "char" := "char", "void" := "int"]

  predicate IsKatoType(t: string) { t == "int" || t == "float" || t == "char" }

  /** `map_c_type_to_kato`: the table entry, or `int` for a type the table
      does not list (pointer types among them). */
  function MapCTypeToKato(cType: string): (r: string)
    ensures IsKatoType(r)
    ensures IsKatoType(cType) ==> r == cType
    ensures !IsKatoType(cType) ==> r == "int"
  {
    if cType in CToKatoTypes then CToKatoTypes[cType] else "int"
  }

  /** Mapping a mapped type again changes nothing. */
  lemma MapIdempotent(cType: string)
    ensures MapCTypeToKato(MapCTypeToKato(cType)) == MapCTypeToKato(cType)
  {
  }
}
