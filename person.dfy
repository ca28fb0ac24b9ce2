/**
 * The Person record of the family tree (Source/person.h, Source/person.cpp).
 *
 * Person objects live on the heap and point at each other (father, mother,
 * children). Here they are records held in an arena, a map from address to
 * record, and a link is the address of the record it points to. The arena also
 * holds the process-wide id counter `global_id`. Every construction draws its
 * id from that counter, and the arena stores each record at the address equal
 * to its id, so `p->get_id()` of a linked person is the link itself.
 */
module Persons {
  import opened Wrappers

  /** sexx: exactly two values. */
  datatype Sex = Male | Female

  /**
   * QDate: either null (default-constructed, or set from an impossible
   * day/month/year triple), or a year/month/day triple.
   */
  datatype Date = NullDate | Day(year: int, month: int, day: int)

  /** QDate's leap-year rule: proleptic Gregorian, with year -1 right before year 1. */
  predicate IsLeapYear(year: int) {
    var y := if year < 1 then year + 1 else year;
    (y % 4 == 0 && y % 100 != 0) || y % 400 == 0
  }

  function DaysInMonth(year: int, month: int): (n: int)
    requires 1 <= month <= 12
    ensures 28 <= n <= 31
    ensures n == 29 <==> month == 2 && IsLeapYear(year)
  {
    if month == 2 then (if IsLeapYear(year) then 29 else 28)
    else if month == 4 || month == 6 || month == 9 || month == 11 then 30
    else 31
  }

  /** QDate::isValid: there is no year 0. */
  predicate IsValidDate(d: Date) {
    && d.Day?
    && d.year != 0
    && 1 <= d.month <= 12
    && 1 <= d.day <= DaysInMonth(d.year, d.month)
  }

  /**
   * m_coord, the position of the person's card in the tree view, held as the
   * text QTextStream writes for each component.
   */
  datatype Coord = Coord(x: string, y: string)

  /** QPointF(): (0, 0). */
  const ORIGIN: Coord := Coord("0", "0")

  /** The address of a Person in the arena. */
  type PersonRef = int

  /** The field set person.cpp uses: photoData (bytes) and the bIsAlive flag. */
  datatype Person = Person(
    id: int,
    birthDate: Date,
    deathDate: Date,
    alive: bool,
    name: string,
    info: string,
    birthPlace: string,
    photoData: seq<bv8>,
    father: Option<PersonRef>,
    mother: Option<PersonRef>,
    children: seq<PersonRef>,
    sex: Sex,
    isSet: bool,
    coord: Coord)

  /** The placeholders the default constructor writes. */
  const DEFAULT_NAME: string := "Фамилия Имя Отчество"
  const DEFAULT_INFO: string := "Информация о человеке"
  const DEFAULT_BIRTH_PLACE: string := "Населённый пункт"

  /** All Person objects of the process, and the static counter `Person::global_id`. */
  class PersonArena {
    var globalId: int
    var people: map<PersonRef, Person>

    /** Every record sits at the address equal to its id, and every id was drawn already. */
    ghost predicate Valid()
      reads this
    {
      && 0 <= globalId
      && forall r | r in people :: 0 <= r < globalId && people[r].id == r
    }

    /** Static storage: the counter starts at 0 and no Person exists yet. */
    constructor ()
      ensures Valid()
      ensures globalId == 0 && people == map[]
    {
      globalId := 0;
      people := map[];
    }

    /** new_id: `return global_id++;` */
    method NewId() returns (id: int)
      modifies this
      ensures id == old(globalId) && globalId == old(globalId) + 1
      ensures old(Valid()) ==> Valid()
      ensures people == old(people)
    {
      id := globalId;
      globalId := globalId + 1;
    }

    /**
     * Person(): alive, null birth and death dates, placeholder texts, no links,
     * not set. The constructor never assigns `sex`, so whatever the storage
     * held is passed in as `indeterminateSex`.
     */
    method NewDefault(indeterminateSex: Sex) returns (pid: PersonRef)
      requires Valid()
      modifies this
      ensures Valid()
      ensures pid == old(globalId) && globalId == old(globalId) + 1 && pid !in old(people)
      ensures people == old(people)[pid := Person(pid, NullDate, NullDate, true, DEFAULT_NAME,
        DEFAULT_INFO, DEFAULT_BIRTH_PLACE, [], None, None, [], indeterminateSex, false, ORIGIN)]
    {
      // birthDate.currentDate() is a static call whose result is dropped;
      // deathDate.setDate(0, 0, 0) names no valid day and leaves the date null
      pid := NewId();
      people := people[pid := Person(pid, NullDate, NullDate, true, DEFAULT_NAME,
        DEFAULT_INFO, DEFAULT_BIRTH_PLACE, [], None, None, [], indeterminateSex, false, ORIGIN)];
    }

    /**
     * Person(const Person&): every attribute and both parent links and the
     * children are copied; the id is freshly drawn, `set` becomes true and
     * m_coord is not copied, so it stays at the origin.
     */
    method NewCopy(src: PersonRef) returns (pid: PersonRef)
      requires Valid() && src in people
      modifies this
      ensures Valid()
      ensures pid == old(globalId) && globalId == old(globalId) + 1 && pid !in old(people)
      ensures people == old(people)[pid := old(people[src]).(id := pid, isSet := true, coord := ORIGIN)]
    {
      var s := people[src];
      pid := NewId();
      people := people[pid := Person(pid, s.birthDate, s.deathDate, s.alive, s.name, s.info,
        s.birthPlace, s.photoData, s.father, s.mother, s.children, s.sex, true, ORIGIN)];
    }

    /**
     * Person(birth, death, alive, name, info, birthPlace, photopath, s): the
     * photo path is ignored and the photo stays empty; no links; set.
     */
    method NewFull(birth: Date, death: Date, alive: bool, name: string, info: string,
                   birthPlace: string, photopath: string, s: Sex) returns (pid: PersonRef)
      requires Valid()
      modifies this
      ensures Valid()
      ensures pid == old(globalId) && globalId == old(globalId) + 1 && pid !in old(people)
      ensures people == old(people)[pid := Person(pid, birth, death, alive, name, info,
        birthPlace, [], None, None, [], s, true, ORIGIN)]
    {
      pid := NewId();
      people := people[pid := Person(pid, birth, death, alive, name, info,
        birthPlace, [], None, None, [], s, true, ORIGIN)];
    }

    /**
     * Person(birth, name, info, birthPlace, photopath, s): alive, a null death
     * date, no links, the given sex, set; the photo path is ignored.
     */
    method NewWithBirth(birth: Date, name: string, info: string, birthPlace: string,
                        photopath: string, s: Sex) returns (pid: PersonRef)
      requires Valid()
      modifies this
      ensures Valid()
      ensures pid == old(globalId) && globalId == old(globalId) + 1 && pid !in old(people)
      ensures people == old(people)[pid := Person(pid, birth, NullDate, true, name, info,
        birthPlace, [], None, None, [], s, true, ORIGIN)]
    {
      pid := NewId();
      people := people[pid := Person(pid, birth, NullDate, true, name, info,
        birthPlace, [], None, None, [], s, true, ORIGIN)];
    }

    /** get_id */
    function GetId(pid: PersonRef): (id: int)
      reads this
      requires pid in people
      ensures Valid() ==> id == pid && 0 <= id < globalId
    {
      people[pid].id
    }

    /** children_num */
    function ChildrenNum(pid: PersonRef): int
      reads this
      requires pid in people
    {
      |people[pid].children|
    }

    /** child(num): QVector's operator[] needs an index in range. */
    function Child(pid: PersonRef, num: int): PersonRef
      reads this
      requires pid in people && 0 <= num < ChildrenNum(pid)
    {
      people[pid].children[num]
    }

    /** setFather: only the father link changes. */
    method SetFather(pid: PersonRef, dad: Option<PersonRef>)
      requires pid in people
      modifies this
      ensures globalId == old(globalId)
      ensures people == old(people)[pid := old(people[pid]).(father := dad)]
      ensures old(Valid()) ==> Valid()
    {
      people := people[pid := people[pid].(father := dad)];
    }

    /** setMother: only the mother link changes. */
    method SetMother(pid: PersonRef, mom: Option<PersonRef>)
      requires pid in people
      modifies this
      ensures globalId == old(globalId)
      ensures people == old(people)[pid := old(people[pid]).(mother := mom)]
      ensures old(Valid()) ==> Valid()
    {
      people := people[pid := people[pid].(mother := mom)];
    }

    /** addChild: appends, repeats allowed; nothing else changes. */
    method AddChild(pid: PersonRef, child: PersonRef)
      requires pid in people
      modifies this
      ensures globalId == old(globalId)
      ensures people == old(people)[pid := old(people[pid]).(children := old(people[pid]).children + [child])]
      ensures old(Valid()) ==> Valid()
      ensures ChildrenNum(pid) == old(ChildrenNum(pid)) + 1
      ensures Child(pid, ChildrenNum(pid) - 1) == child
      ensures forall i | 0 <= i < old(ChildrenNum(pid)) :: Child(pid, i) == old(Child(pid, i))
    {
      people := people[pid := people[pid].(children := people[pid].children + [child])];
    }

    /**
     * import_data(profile): takes every attribute, both parent links and the
     * children (in order) from the profile, keeps its own id and m_coord,
     * becomes set, and deletes the profile. Importing from itself would
     * write to the deleted object, so the profile is another person.
     */
    method ImportData(pid: PersonRef, profile: PersonRef)
      requires Valid() && pid in people && profile in people && pid != profile
      modifies this
      ensures Valid()
      ensures globalId == old(globalId)
      ensures people == (old(people) - {profile})[pid :=
        old(people[profile]).(id := old(people[pid]).id, isSet := true, coord := old(people[pid]).coord)]
    {
      var src := people[profile];
      var me := people[pid].(birthDate := src.birthDate, deathDate := src.deathDate, alive := src.alive,
        name := src.name, info := src.info, birthPlace := src.birthPlace, photoData := src.photoData,
        father := src.father, mother := src.mother, sex := src.sex, children := []);
      people := people[pid := me];
      var i := 0;
      while i < |src.children|
        invariant 0 <= i <= |src.children|
        invariant globalId == old(globalId)
        invariant people == old(people)[pid := me.(children := src.children[..i])]
      {
        people := people[pid := people[pid].(children := people[pid].children + [src.children[i]])];
        assert src.children[..i + 1] == src.children[..i] + [src.children[i]];
        i := i + 1;
      }
      assert src.children[..i] == src.children;
      people := people - {profile};
      people := people[pid := people[pid].(isSet := true)];
    }
  }
}
