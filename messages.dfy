/** The fixed user-facing texts and navigation targets of the dashboard.
    Where several places show the same text, they share one constant. */
module Messages {

  // Lesson service failures; the lesson list and the lesson form show the
  // same texts for their own load and save errors.
  const LessonsLoadFailed := "Dərsləri yükləmək mümkün olmadı"
  const CourseLessonsLoadFailed := "Kurs dərslərini yükləmək mümkün olmadı"
  const LessonLoadFailed := "Dərsi yükləmək mümkün olmadı"
  const LessonCreateFailed := "Dərsi yaratmaq mümkün olmadı"
  const LessonUpdateFailed := "Dərsi yeniləmək mümkün olmadı"
  const LessonDeleteFailed := "Dərsi silmək mümkün olmadı"
  const LessonWatchFailed := "Dərsi izlənilmiş kimi qeyd etmək mümkün olmadı"
  const LessonProgressFailed := "Dərslərin irəliləyişini yükləmək mümkün olmadı"

  // Course service failures, likewise reused by the course screens.
  const CoursesLoadFailed := "Kursları yükləmək mümkün olmadı"
  const CourseLoadFailed := "Kursu yükləmək mümkün olmadı"
  const CourseCreateFailed := "Kursu yaratmaq mümkün olmadı"
  const CourseUpdateFailed := "Kursu yeniləmək mümkün olmadı"
  const CourseDeleteFailed := "Kursu silmək mümkün olmadı"

  // Login failures of the auth service; AdminOnly is also the login page's
  // rejection of a non-admin user.
  const InvalidCredentials := "Yanlış e-poçt və ya şifrə"
  const AdminOnly := "Bu portal yalnız admin istifadəçilər üçündür"
  const LoginFailed := "Giriş zamanı xəta baş verdi. Zəhmət olmasa sonra yenidən cəhd edin"

  /** Fallback of the auth context when a login error has no message. */
  const ContextLoginFallback := "Giriş zamanı xəta baş verdi"
  /** Fallback of the login page when a login error has no message. */
  const LoginPageFallback := "E-poçt və ya şifrə yanlışdır"
  /** The error `useAuth` throws outside an `AuthProvider`. */
  const OutsideProvider := "useAuth must be used within an AuthProvider"

  const RequiredFields := "Bütün vacib sahələri doldurun"
  const CourseDeleted := "Kurs uğurla silindi"
  const LessonDeleted := "Dərs uğurla silindi"
  const DashboardFallback := "Məlumatları yükləmək mümkün olmadı"

  // Client-side navigation targets.
  const LoginPath := "/login"
  const DashboardPath := "/dashboard"
  const CoursesPage := "/admin/courses"
  const LessonsPage := "/admin/lessons"
}
